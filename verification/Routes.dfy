// A full tunnel's routes: split defaults into the tunnel and host routes around
// it for the endpoints, kept up to date incrementally (internal/network/darwin.go).
module Routes {
  import opened Common
  import opened Numbers

  datatype Family = V4 | V6

  /** net.ParseIP and prefixLen, as far as they matter here. */
  datatype Net = Net(family: string -> Option<Family>, prefixLen: string -> int)

  /** The default gateways; "" if a family has none. */
  datatype Gateways = Gateways(v4: string, v6: string)

  /** Where a host route leads. */
  datatype Target = Via(gateway: string) | Blackhole

  /** The families whose default route goes into the tunnel. */
  datatype Hijack = Hijack(v4: bool, v6: bool)

  function TargetOf(f: Family, g: Gateways): Target {
    var gw := if f == V6 then g.v6 else g.v4;
    if gw == "" then Blackhole else Via(gw)
  }

  predicate Hijacked(h: Hijack, f: Family) { if f == V6 then h.v6 else h.v4 }

  /** The endpoint needs a host route around the tunnel. */
  predicate Bypassed(net: Net, h: Hijack, ip: string) {
    ip != "" && net.family(ip).Some? && Hijacked(h, net.family(ip).value)
  }

  /** The text is as net.IP prints it: a colon exactly in IPv6. */
  predicate Canonical(net: Net, ip: string) {
    net.family(ip).Some? ==> (net.family(ip).value == V6 <==> ':' in ip)
  }

  /** The host routes of a rebuild from scratch. */
  function Rebuilt(net: Net, h: Hijack, endpoints: seq<string>, g: Gateways): map<string, Target> {
    map ip | ip in endpoints && Bypassed(net, h, ip) :: TargetOf(net.family(ip).value, g)
  }

  /** The endpoints that it bypasses, whatever the gateways. */
  function BypassSet(net: Net, h: Hijack, endpoints: seq<string>): set<string> {
    set ip | ip in endpoints && Bypassed(net, h, ip)
  }

  function Members(s: seq<string>): set<string> { set x | x in s }

  // ---- stringSetEqual ----

  /** Same elements as often, in any order. */
  method StringSetEqual(a: seq<string>, b: seq<string>) returns (equal: bool)
    ensures equal <==> multiset(a) == multiset(b)
  {
    if |a| != |b| {
      assert |multiset(a)| == |a| && |multiset(b)| == |b|;
      return false;
    }
    var counts := multiset(a);
    for i := 0 to |b|
      invariant multiset(b[..i]) <= multiset(a) && counts == multiset(a) - multiset(b[..i])
    {
      assert b[..i+1] == b[..i] + [b[i]];
      assert b == b[..i] + [b[i]] + b[i+1..];
      if counts[b[i]] == 0 {
        assert multiset(b)[b[i]] >= multiset(b[..i])[b[i]] + 1;
        return false;
      }
      counts := counts - multiset{b[i]};
    }
    assert b[..|b|] == b;
    assert multiset(a) == multiset(b) + (multiset(a) - multiset(b));
    assert |multiset(a)| == |multiset(b)| + |multiset(a) - multiset(b)|;
    return true;
  }

  // ---- sortAllowedIPs ----

  ghost predicate Descending(net: Net, s: seq<string>) {
    forall i, j | 0 <= i < j < |s| :: net.prefixLen(s[i]) >= net.prefixLen(s[j])
  }

  /** s with the element at i moved down to at. */
  function Moved(s: seq<string>, i: nat, at: nat): (r: seq<string>)
    requires at <= i < |s|
    ensures |r| == |s|
  {
    s[..at] + [s[i]] + s[at..i] + s[i+1..]
  }

  lemma MovedSame(s: seq<string>, i: nat, at: nat)
    requires at <= i < |s|
    ensures multiset(Moved(s, i, at)) == multiset(s)
  {
    assert s == s[..at] + s[at..i] + [s[i]] + s[i+1..];
    SwapSame(s[..at], s[at..i], [s[i]], s[i+1..]);
  }

  lemma SwapSame(a: seq<string>, b: seq<string>, c: seq<string>, d: seq<string>)
    ensures multiset(a + c + b + d) == multiset(a + b + c + d)
  {}

  /** at is where the element at i belongs among the sorted ones before it. */
  ghost predicate Belongs(net: Net, s: seq<string>, i: nat, at: nat) {
    && at <= i < |s|
    && (forall k | at <= k < i :: net.prefixLen(s[k]) < net.prefixLen(s[i]))
    && (at > 0 ==> net.prefixLen(s[at-1]) >= net.prefixLen(s[i]))
  }

  lemma MovedDescends(net: Net, s: seq<string>, i: nat, at: nat)
    requires Belongs(net, s, i, at) && Descending(net, s[..i])
    ensures Descending(net, Moved(s, i, at)[..i+1])
  {
    var r := Moved(s, i, at)[..i+1];
    assert r == s[..at] + [s[i]] + s[at..i];
    forall a, b | 0 <= a < b < |r| ensures net.prefixLen(r[a]) >= net.prefixLen(r[b]) {
      assert forall k, l | 0 <= k < l < i :: net.prefixLen(s[..i][k]) >= net.prefixLen(s[..i][l]);
      if b > at {
        assert r[b] == s[..i][b-1];
      } else if b < at {
        assert r[b] == s[..i][b];
      }
      if a > at {
        assert r[a] == s[..i][a-1];
      } else if a < at {
        assert r[a] == s[..i][a];
        assert at - 1 < i && s[..i][at-1] == s[at-1];
      }
    }
  }

  /** Moves the element at i down past the shorter prefixes before it. */
  lemma MovedIs(s: seq<string>, r: seq<string>, i: nat, at: nat)
    requires at <= i < |s| == |r| && r[at] == s[i]
    requires forall k | 0 <= k < at || i < k < |s| :: r[k] == s[k]
    requires forall k | at < k <= i :: r[k] == s[k-1]
    ensures r == Moved(s, i, at)
  {}

  method SiftDown(net: Net, result: array<string>, i: nat) returns (at: nat)
    requires i < result.Length
    modifies result
    ensures Belongs(net, old(result[..]), i, at) && result[..] == Moved(old(result[..]), i, at)
  {
    var cur, curPrefix := result[i], net.prefixLen(result[i]);
    at := i;
    while at > 0 && net.prefixLen(result[at-1]) < curPrefix
      invariant at <= i
      invariant forall k | 0 <= k < at || i < k < result.Length :: result[k] == old(result[k])
      invariant forall k | at < k <= i :: result[k] == old(result[k-1])
      invariant forall k | at <= k < i :: net.prefixLen(old(result[k])) < curPrefix
    {
      result[at] := result[at-1];
      at := at - 1;
    }
    result[at] := cur;
    MovedIs(old(result[..]), result[..], i, at);
  }

  /** Longest prefix first. */
  method SortAllowedIPs(net: Net, cidrs: seq<string>) returns (sorted: seq<string>)
    ensures Descending(net, sorted) && multiset(sorted) == multiset(cidrs)
  {
    var result := new string[|cidrs|](i requires 0 <= i < |cidrs| => cidrs[i]);
    assert result[..] == cidrs;
    if result.Length == 0 {
      return [];
    }
    for i := 1 to result.Length
      invariant multiset(result[..]) == multiset(cidrs)
      invariant Descending(net, result[..i])
    {
      hide Moved, Descending, Belongs;
      ghost var s := result[..];
      assert s[..i] == result[..i];
      var at := SiftDown(net, result, i);
      MovedSame(s, i, at);
      MovedDescends(net, s, i, at);
      assert result[..i+1] == Moved(s, i, at)[..i+1];
    }
    sorted := result[..];
    assert result[..result.Length] == sorted;
  }

  // ---- the bypass routes ----

  /** The bypass list is that of a rebuild from these endpoints, and each has a host route. */
  ghost predicate Bypassing(net: Net, h: Hijack, last: seq<string>, bypass: seq<string>, hosts: map<string, Target>) {
    Members(bypass) == BypassSet(net, h, last) && forall ip | ip in bypass :: ip in hosts
  }

  /** The host route of ip leads where these gateways say. */
  predicate LeadsTo(net: Net, g: Gateways, hosts: map<string, Target>, ip: string) {
    ip in hosts && net.family(ip).Some? && hosts[ip] == TargetOf(net.family(ip).value, g)
  }

  /** The route around the tunnel for a host of a family: by that family's gateway, or into nothing without one. */
  ghost predicate LeavesBy(f: Family, g: Gateways, t: Target) {
    if f == V4 then (g.v4 != "" ==> t == Via(g.v4)) && (g.v4 == "" ==> t == Blackhole)
    else (g.v6 != "" ==> t == Via(g.v6)) && (g.v6 == "" ==> t == Blackhole)
  }

  /**
   * Of the endpoints, exactly those of a family that the tunnel takes over have a
   * route around it; the other routes are as they were.
   */
  ghost predicate GoAround(net: Net, takes: Hijack, endpoints: seq<string>, g: Gateways, before: map<string, Target>, after: map<string, Target>) {
    forall ip ::
      if ip in endpoints && ip != "" && ((takes.v4 && net.family(ip) == Some(V4)) || (takes.v6 && net.family(ip) == Some(V6)))
      then ip in after && LeavesBy(net.family(ip).value, g, after[ip])
      else (ip in after <==> ip in before) && (ip in after ==> after[ip] == before[ip])
  }

  /** Every prefix is routed into the tunnel, a default as its two halves. */
  ghost predicate IntoTunnel(allowedIPs: seq<string>, before: set<string>, after: set<string>) {
    forall r :: r in after <==>
      || r in before
      || (r in allowedIPs && r != "0.0.0.0/0" && r != "::/0")
      || ("0.0.0.0/0" in allowedIPs && (r == "0.0.0.0/1" || r == "128.0.0.0/1"))
      || ("::/0" in allowedIPs && (r == "::/1" || r == "8000::/1"))
  }

  lemma PrefixesGoIn(allowedIPs: seq<string>, before: set<string>)
    ensures IntoTunnel(allowedIPs, before, before + (Members(allowedIPs) - {DEFAULT_V4, DEFAULT_V6}) +
                       Splits(Hijack(DEFAULT_V4 in allowedIPs, DEFAULT_V6 in allowedIPs)))
  {}

  lemma RebuiltGoesAround(net: Net, h: Hijack, endpoints: seq<string>, g: Gateways, before: map<string, Target>)
    ensures GoAround(net, h, endpoints, g, before, before + Rebuilt(net, h, endpoints, g))
  {
    var rebuilt := Rebuilt(net, h, endpoints, g);
    assert forall ip :: ip in rebuilt <==> ip in endpoints && Bypassed(net, h, ip);
    assert forall ip | ip in rebuilt :: LeavesBy(net.family(ip).value, g, rebuilt[ip]);
    hide Rebuilt, LeavesBy;
  }

  class DarwinManager {
    const net: Net
    var bypassEndpoints: seq<string>
    var lastIface: string
    var lastEndpoints: seq<string>
    var lastGateways: Gateways
    var hijack: Hijack
    var hosts: map<string, Target>   // the kernel's host routes
    var tunnelRoutes: set<string>    // the prefixes routed into the tunnel

    /** The bypassed endpoints are exactly the last endpoints of a hijacked family, and all have host routes. */
    ghost predicate Listed()
      reads this
    {
      (forall ip | ip in lastEndpoints :: Canonical(net, ip)) && Bypassing(net, hijack, lastEndpoints, bypassEndpoints, hosts)
    }

    /** Their routes lead where the last gateways say. */
    ghost predicate Routed() reads this { forall ip | ip in bypassEndpoints :: LeadsTo(net, lastGateways, hosts, ip) }

    ghost predicate InStep() reads this { Listed() && Routed() }

    /** Every route that an update to these endpoints and gateways leaves alone is right already. */
    ghost predicate KeptRight(eps: seq<string>, current: Gateways)
      reads this
    {
      current != lastGateways || forall ip | ip in bypassEndpoints && ip in eps :: LeadsTo(net, current, hosts, ip)
    }

    /** The kernel's routes without ours. */
    ghost function Foreign(): map<string, Target> reads this { hosts - Members(bypassEndpoints) }

    constructor (net: Net, hosts: map<string, Target>)
      ensures InStep() && bypassEndpoints == [] && this.hosts == hosts && this.net == net && lastIface == ""
    {
      this.net, this.hosts := net, hosts;
      bypassEndpoints, lastEndpoints, lastIface := [], [], "";
      lastGateways, hijack, tunnelRoutes := Gateways("", ""), Hijack(false, false), {};
    }

    /** Routes one endpoint around the tunnel. */
    method AddBypass(ip: string, g: Gateways)
      requires net.family(ip).Some?
      modifies this`bypassEndpoints, this`hosts
      ensures bypassEndpoints == old(bypassEndpoints) + [ip]
      ensures hosts == old(hosts)[ip := TargetOf(net.family(ip).value, g)]
      ensures LeavesBy(net.family(ip).value, g, hosts[ip])
    {
      var f := net.family(ip).value;
      var gw := if f == V6 then g.v6 else g.v4;
      if gw == "" {
        hosts := hosts[ip := Blackhole];
      } else {
        hosts := hosts[ip := Via(gw)];
      }
      bypassEndpoints := bypassEndpoints + [ip];
    }

    /** route delete, which looks for the family that the text suggests. */
    method DeleteRoute(ip: string)
      modifies this`hosts
      ensures net.family(ip).Some? && Canonical(net, ip) ==> hosts == old(hosts) - {ip}
    {
      var inet6 := ':' in ip;
      if net.family(ip).Some? && (net.family(ip).value == V6) == inet6 {
        hosts := hosts - {ip};
      }
    }

    /** Bypasses every listed endpoint of a hijacked family that is not skipped. */
    method AddAll(h: Hijack, endpoints: seq<string>, skip: set<string>, g: Gateways)
      modifies this`bypassEndpoints, this`hosts
      ensures Members(bypassEndpoints) == old(Members(bypassEndpoints)) + (Rebuilt(net, h, endpoints, g).Keys - skip)
      ensures hosts == old(hosts) + (Rebuilt(net, h, endpoints, g) - skip)
    {
      assert Rebuilt(net, h, endpoints[..0], g) == map[];
      hide Rebuilt, Members;
      for i := 0 to |endpoints|
        invariant Members(bypassEndpoints) == old(Members(bypassEndpoints)) + (Rebuilt(net, h, endpoints[..i], g).Keys - skip)
        invariant hosts == old(hosts) + (Rebuilt(net, h, endpoints[..i], g) - skip)
      {
        var ip := endpoints[i];
        assert endpoints[..i+1] == endpoints[..i] + [ip];
        RebuiltMore(net, h, endpoints[..i], ip, g, skip, old(hosts));
        MembersMore(bypassEndpoints, ip);
        if ip == "" || ip in skip || net.family(ip).None? || !Hijacked(h, net.family(ip).value) {
          continue;
        }
        AddBypass(ip, g);
      }
      assert endpoints[..|endpoints|] == endpoints;
    }

    /** Deletes the routes of the endpoints not kept; the kept ones stay listed. */
    method DropStale(bypass: seq<string>, kept: set<string>)
      requires forall ip | ip in bypass :: net.family(ip).Some? && Canonical(net, ip)
      requires bypassEndpoints == []
      modifies this`bypassEndpoints, this`hosts
      ensures Members(bypassEndpoints) == Members(bypass) * kept
      ensures hosts == old(hosts) - (Members(bypass) - kept)
    {
      for i := 0 to |bypass|
        invariant Members(bypassEndpoints) == Members(bypass[..i]) * kept
        invariant hosts == old(hosts) - (Members(bypass[..i]) - kept)
      {
        assert bypass[..i+1] == bypass[..i] + [bypass[i]];
        assert bypass[i] in bypass;
        MembersMore(bypass[..i], bypass[i]);
        MembersMore(bypassEndpoints, bypass[i]);
        if bypass[i] in kept {
          bypassEndpoints := bypassEndpoints + [bypass[i]];
          continue;
        }
        DeleteRoute(bypass[i]);
      }
      assert bypass[..|bypass|] == bypass;
    }

    /**
     * Installs the routes of a tunnel. The gateways are probed twice, for the
     * bypass routes and for later comparison; the routes lead where the second probe
     * says exactly if both probes route the bypassed endpoints alike.
     */
    method AddRoutes(iface: string, allowedIPs: seq<string>, endpoints: seq<string>, tableOff: bool, probe: Gateways, later: Gateways)
      requires bypassEndpoints == [] && forall ip | ip in endpoints :: Canonical(net, ip)
      modifies this
      ensures tableOff ==> hosts == old(hosts) && tunnelRoutes == old(tunnelRoutes) && bypassEndpoints == []
      ensures !tableOff ==>
        && hijack == Hijack("0.0.0.0/0" in allowedIPs, "::/0" in allowedIPs)
        && IntoTunnel(allowedIPs, old(tunnelRoutes), tunnelRoutes)
        && hosts == old(hosts) + Rebuilt(net, hijack, endpoints, probe)
        && GoAround(net, Hijack("0.0.0.0/0" in allowedIPs, "::/0" in allowedIPs), endpoints, probe, old(hosts), hosts)
        && lastIface == iface && lastEndpoints == endpoints && lastGateways == later
        && Listed()
        && (InStep() <==> Rebuilt(net, hijack, endpoints, probe) == Rebuilt(net, hijack, endpoints, later))
    {
      if tableOff {
        return;
      }
      hide Rebuilt, Members, Bypassing, GoAround, IntoTunnel, Splits;
      PrefixesGoIn(allowedIPs, tunnelRoutes);
      var sorted := SortAllowedIPs(net, allowedIPs);
      SameMembers(sorted, allowedIPs);
      var h := AddPrefixes(sorted);
      NoMembers(bypassEndpoints);
      AddAll(h, endpoints, {}, probe);
      assert Rebuilt(net, h, endpoints, probe) - {} == Rebuilt(net, h, endpoints, probe);
      hijack, lastIface, lastEndpoints, lastGateways := h, iface, endpoints, later;
      InStepMeans(net, h, endpoints, probe, later, bypassEndpoints, hosts, old(hosts));
      RebuiltGoesAround(net, h, endpoints, probe, old(hosts));
    }

    /** The prefix routes, and the two halves for each default route. */
    method AddPrefixes(sorted: seq<string>) returns (h: Hijack)
      modifies this`tunnelRoutes
      ensures h == Hijack(DEFAULT_V4 in sorted, DEFAULT_V6 in sorted)
      ensures tunnelRoutes == old(tunnelRoutes) + (Members(sorted) - {DEFAULT_V4, DEFAULT_V6}) + Splits(h)
    {
      h := Hijack(false, false);
      for i := 0 to |sorted|
        invariant h == Hijack(DEFAULT_V4 in sorted[..i], DEFAULT_V6 in sorted[..i])
        invariant tunnelRoutes == old(tunnelRoutes) + (Members(sorted[..i]) - {DEFAULT_V4, DEFAULT_V6})
      {
        assert sorted[..i+1] == sorted[..i] + [sorted[i]];
        MembersMore(sorted[..i], sorted[i]);
        if sorted[i] == DEFAULT_V4 {
          h := h.(v4 := true);
          continue;
        }
        if sorted[i] == DEFAULT_V6 {
          h := h.(v6 := true);
          continue;
        }
        tunnelRoutes := tunnelRoutes + {sorted[i]};
      }
      assert sorted[..|sorted|] == sorted;
      if h.v4 {
        tunnelRoutes := tunnelRoutes + {"0.0.0.0/1", "128.0.0.0/1"};
      }
      if h.v6 {
        tunnelRoutes := tunnelRoutes + {"::/1", "8000::/1"};
      }
    }

    /** Replaces all bypass routes if a gateway changed, or else only those of endpoints that came or went. */
    method UpdateBypass(eps: seq<string>, current: Gateways, gatewayChanged: bool)
      requires Listed() && forall ip | ip in eps :: Canonical(net, ip)
      requires gatewayChanged <==> current != lastGateways
      modifies this`bypassEndpoints, this`hosts, this`lastEndpoints, this`lastGateways
      ensures Listed() && lastEndpoints == eps && lastGateways == current
      ensures Routed() <==> old(KeptRight(eps, current))
      ensures hosts == old(Foreign()) + Rebuilt(net, hijack, eps, current) <==> old(KeptRight(eps, current))
    {
      hide Rebuilt, Members, Bypassing, BypassSet, LeadsTo;
      BypassKnown(net, hijack, lastEndpoints, bypassEndpoints, hosts);
      var oldBypass, oldSet, newSet := bypassEndpoints, Members(lastEndpoints), Members(eps);
      bypassEndpoints := [];
      DropStale(oldBypass, if gatewayChanged then {} else newSet);
      AddAll(hijack, eps, if gatewayChanged then {} else oldSet, current);
      Incremental(net, hijack, lastEndpoints, eps, current, oldBypass, old(hosts), gatewayChanged);
      RoutesAre(net, hijack, eps, current, bypassEndpoints, hosts, old(Foreign()));
      lastEndpoints, lastGateways := eps, current;
    }

    /**
     * What the route monitor does on an event. The bypass list is afterwards that of
     * a rebuild from the live endpoints, always. Touching only what changed, it leaves
     * the kernel with the host routes of a rebuild if and only if a gateway changed or
     * every kept endpoint's route was right; a manager in step stays so.
     */
    method Reapply(live: seq<string>, current: Gateways)
      requires Listed() && forall ip | ip in live :: Canonical(net, ip)
      modifies this`bypassEndpoints, this`hosts, this`lastEndpoints, this`lastGateways
      ensures Listed()
      ensures lastIface == "" ==> hosts == old(hosts) && bypassEndpoints == old(bypassEndpoints)
      ensures var eps := if live == [] then old(lastEndpoints) else live;
        lastIface != "" ==>
          && Members(bypassEndpoints) == BypassSet(net, hijack, eps)
          && (hosts == old(Foreign()) + Rebuilt(net, hijack, eps, current) <==> old(KeptRight(eps, current)))
          && (InStep() <==> old(KeptRight(eps, current)))
          && (old(KeptRight(eps, current)) ==> GoAround(net, hijack, eps, current, old(Foreign()), hosts))
      ensures old(InStep()) ==> InStep()
      ensures old(InStep()) && lastIface != "" ==>
        GoAround(net, hijack, if live == [] then old(lastEndpoints) else live, current, old(Foreign()), hosts)
    {
      if lastIface == "" {
        return;
      }
      hide Rebuilt, Members, Bypassing, BypassSet, LeadsTo, GoAround;
      RebuiltGoesAround(net, hijack, if live == [] then lastEndpoints else live, current, Foreign());
      var eps := if |live| == 0 then lastEndpoints else live;
      var gatewayChanged := current.v4 != lastGateways.v4 || current.v6 != lastGateways.v6;
      var same := StringSetEqual(lastEndpoints, eps);
      StepsAgree(net, hijack, lastEndpoints, eps, lastGateways, current, bypassEndpoints, hosts);
      if !((hijack.v4 || hijack.v6) && (gatewayChanged || !same)) {
        NothingToDo(net, hijack, lastEndpoints, eps, current, bypassEndpoints, hosts);
        return;
      }
      UpdateBypass(eps, current, gatewayChanged);
      BypassListed(net, hijack, eps, bypassEndpoints, hosts);
    }

    /** Deletes the bypass routes and every route into the tunnel, and forgets it. */
    method Cleanup()
      requires Listed()
      modifies this`bypassEndpoints, this`hosts, this`tunnelRoutes, this`lastIface, this`lastEndpoints, this`lastGateways, this`hijack
      ensures InStep() && hosts == old(Foreign()) && tunnelRoutes == {} && bypassEndpoints == [] && lastIface == ""
    {
      var bypass := bypassEndpoints;
      bypassEndpoints, lastIface, lastEndpoints := [], "", [];
      lastGateways, hijack := Gateways("", ""), Hijack(false, false);
      assert forall ip | ip in bypass :: ip in Members(bypass);
      DropStale(bypass, {});
      NoMembers(bypassEndpoints);
      tunnelRoutes := {};
    }
  }

  /** If the gateway moves between the two probes, the endpoint's route is stale, and the list is right all the same. */
  lemma StaleRoute(net: Net, ip: string, probe: Gateways, later: Gateways)
    requires ip != "" && net.family(ip) == Some(V4) && probe.v4 != later.v4
    ensures var h := Hijack(true, false);
      var hosts := Rebuilt(net, h, [ip], probe);
      Bypassing(net, h, [ip], [ip], hosts) && !LeadsTo(net, later, hosts, ip) && hosts != Rebuilt(net, h, [ip], later)
  {
    var hosts := Rebuilt(net, Hijack(true, false), [ip], probe);
    assert ip in [ip] && ip in hosts;
  }

  /** And the next event, with the gateway of the second probe, does not put it right. */
  method StaleAfterReapply(net: Net, ip: string, probe: Gateways, later: Gateways) returns (hosts: map<string, Target>)
    requires ip != "" && net.family(ip) == Some(V4) && Canonical(net, ip) && probe.v4 != later.v4
    ensures hosts != Rebuilt(net, Hijack(true, false), [ip], later)
  {
    StaleRoute(net, ip, probe, later);
    var m := new DarwinManager(net, map[]);
    m.AddRoutes("utun9", [DEFAULT_V4], [ip], false, probe, later);
    assert ip in BypassSet(net, m.hijack, [ip]);
    assert m.Foreign() == map[];
    m.Reapply([ip], later);
    hosts := m.hosts;
  }

  const DEFAULT_V4 := "0.0.0.0/0"
  const DEFAULT_V6 := "::/0"

  /** The halves that together outrank a default route. */
  function Splits(h: Hijack): set<string> {
    (if h.v4 then {"0.0.0.0/1", "128.0.0.0/1"} else {}) + (if h.v6 then {"::/1", "8000::/1"} else {})
  }

  lemma NoMembers(s: seq<string>)
    ensures Members(s) == {} <==> s == []
  {
    if s != [] {
      assert s[0] in Members(s);
    }
  }

  lemma SameMembers(a: seq<string>, b: seq<string>)
    requires multiset(a) == multiset(b)
    ensures Members(a) == Members(b) && forall x :: x in a <==> x in b
  {
    assert forall x :: x in a <==> x in multiset(a);
    assert forall x :: x in b <==> x in multiset(b);
  }

  /** With equal lists or no hijacked family, the bypass list is right already. */
  lemma NothingToDo(net: Net, h: Hijack, last: seq<string>, eps: seq<string>, current: Gateways, bypass: seq<string>, hosts: map<string, Target>)
    requires Bypassing(net, h, last, bypass, hosts) && (multiset(last) == multiset(eps) || (!h.v4 && !h.v6))
    ensures Members(bypass) == BypassSet(net, h, eps)
    ensures hosts == (hosts - Members(bypass)) + Rebuilt(net, h, eps, current) <==>
            forall ip | ip in bypass && ip in eps :: LeadsTo(net, current, hosts, ip)
    ensures (forall ip | ip in bypass :: LeadsTo(net, current, hosts, ip)) <==>
            forall ip | ip in bypass && ip in eps :: LeadsTo(net, current, hosts, ip)
    ensures !h.v4 && !h.v6 ==> bypass == []
  {
    if multiset(last) == multiset(eps) {
      SameMembers(last, eps);
    }
    NoMembers(bypass);
    assert forall ip :: ip in bypass <==> ip in Members(bypass);
    RoutesAre(net, h, eps, current, bypass, hosts, hosts - Members(bypass));
  }

  /** A manager in step leaves nothing wrong alone. */
  lemma StepsAgree(net: Net, h: Hijack, last: seq<string>, eps: seq<string>, g: Gateways, current: Gateways, bypass: seq<string>, hosts: map<string, Target>)
    ensures (forall ip | ip in bypass :: LeadsTo(net, g, hosts, ip)) ==>
            current != g || forall ip | ip in bypass && ip in eps :: LeadsTo(net, current, hosts, ip)
  {}

  /** Keeping what stays and adding what is new comes to the same as a rebuild, if what stays was right. */
  lemma Incremental(net: Net, h: Hijack, last: seq<string>, eps: seq<string>, current: Gateways,
                    bypass: seq<string>, hosts: map<string, Target>, all: bool)
    requires Bypassing(net, h, last, bypass, hosts)
    ensures var kept, skip := if all then {} else Members(eps), if all then {} else Members(last);
      var wanted := Rebuilt(net, h, eps, current);
      var after := (hosts - (Members(bypass) - kept)) + (wanted - skip);
      && Members(bypass) * kept + (wanted.Keys - skip) == BypassSet(net, h, eps)
      && BypassSet(net, h, eps) <= after.Keys
      && after - BypassSet(net, h, eps) == (hosts - Members(bypass)) - BypassSet(net, h, eps)
      && (after == (hosts - Members(bypass)) + wanted <==>
          all || forall ip | ip in bypass && ip in eps :: LeadsTo(net, current, hosts, ip))
  {
    var kept, skip := if all then {} else Members(eps), if all then {} else Members(last);
    var wanted := Rebuilt(net, h, eps, current);
    assert wanted.Keys == BypassSet(net, h, eps);
    if !all {
      StaysAre(net, h, last, eps, bypass, hosts);
    }
    assert (forall ip | ip in Members(bypass) * kept :: LeadsTo(net, current, hosts, ip)) <==>
           all || forall ip | ip in bypass && ip in eps :: LeadsTo(net, current, hosts, ip);
    assert forall ip | ip in wanted :: net.family(ip).Some? && wanted[ip] == TargetOf(net.family(ip).value, current);
    hide Rebuilt, Members, BypassSet, Bypassing;
    KeepAndAdd(net, current, hosts, Members(bypass), kept, skip, wanted);
  }

  /** An endpoint that came and one that went: what is listed before and wanted after is what stays. */
  lemma StaysAre(net: Net, h: Hijack, last: seq<string>, eps: seq<string>, bypass: seq<string>, hosts: map<string, Target>)
    requires Bypassing(net, h, last, bypass, hosts)
    ensures BypassSet(net, h, eps) * Members(last) == Members(bypass) * Members(eps)
  {}

  /** The routes of a keep-and-add update, on sets. */
  lemma KeepAndAdd(net: Net, current: Gateways, hosts: map<string, Target>, listed: set<string>, kept: set<string>, skip: set<string>, wanted: map<string, Target>)
    requires listed <= hosts.Keys && wanted.Keys * skip == listed * kept
    requires forall ip | ip in wanted :: net.family(ip).Some? && wanted[ip] == TargetOf(net.family(ip).value, current)
    ensures var after := (hosts - (listed - kept)) + (wanted - skip);
      && listed * kept + (wanted.Keys - skip) == wanted.Keys <= after.Keys
      && after - wanted.Keys == (hosts - listed) - wanted.Keys
      && (after == (hosts - listed) + wanted <==> forall ip | ip in listed * kept :: LeadsTo(net, current, hosts, ip))
  {
    var after := (hosts - (listed - kept)) + (wanted - skip);
    forall ip | ip in listed * kept ensures ip in wanted && ip in skip && after[ip] == hosts[ip] {
      assert ip in wanted.Keys * skip;
    }
    forall ip | ip in wanted && ip in skip ensures ip in listed * kept { assert ip in wanted.Keys * skip; }
    if after == (hosts - listed) + wanted {
      forall ip | ip in listed * kept ensures LeadsTo(net, current, hosts, ip) {
        assert after[ip] == wanted[ip];
      }
    }
  }

  /** The kernel has the routes of a rebuild exactly if all bypass routes are right, and nothing else changed. */
  lemma RoutesAre(net: Net, h: Hijack, eps: seq<string>, g: Gateways, bypass: seq<string>, hosts: map<string, Target>, foreign: map<string, Target>)
    requires Members(bypass) == BypassSet(net, h, eps) <= hosts.Keys
    requires hosts - BypassSet(net, h, eps) == foreign - BypassSet(net, h, eps)
    ensures Bypassing(net, h, eps, bypass, hosts)
    ensures (forall ip | ip in bypass :: LeadsTo(net, g, hosts, ip)) <==> hosts == foreign + Rebuilt(net, h, eps, g)
  {
    var all, wanted := BypassSet(net, h, eps), Rebuilt(net, h, eps, g);
    assert wanted.Keys == all && forall ip :: ip in bypass <==> ip in Members(bypass);
    if forall ip | ip in bypass :: LeadsTo(net, g, hosts, ip) {
      forall ip ensures ip in hosts <==> ip in foreign + wanted {
        assert ip !in all ==> (ip in hosts - all <==> ip in foreign - all);
      }
      forall ip | ip in hosts ensures hosts[ip] == (foreign + wanted)[ip] {
        if ip in all {
          assert ip in bypass;
        } else {
          assert (hosts - all)[ip] == (foreign - all)[ip];
        }
      }
    } else {
      var ip :| ip in bypass && !LeadsTo(net, g, hosts, ip);
      assert ip in wanted;
    }
  }

  lemma BypassListed(net: Net, h: Hijack, eps: seq<string>, bypass: seq<string>, hosts: map<string, Target>)
    requires Bypassing(net, h, eps, bypass, hosts)
    ensures Members(bypass) == BypassSet(net, h, eps)
  {}

  lemma BypassKnown(net: Net, h: Hijack, last: seq<string>, bypass: seq<string>, hosts: map<string, Target>)
    requires Bypassing(net, h, last, bypass, hosts) && forall ip | ip in last :: Canonical(net, ip)
    ensures forall ip | ip in bypass :: net.family(ip).Some? && Canonical(net, ip)
  {
    assert forall ip | ip in bypass :: ip in Members(bypass);
  }

  lemma InStepMeans(net: Net, h: Hijack, endpoints: seq<string>, probe: Gateways, later: Gateways,
                    bypass: seq<string>, hosts: map<string, Target>, before: map<string, Target>)
    requires Members(bypass) == Rebuilt(net, h, endpoints, probe).Keys && hosts == before + Rebuilt(net, h, endpoints, probe)
    ensures Bypassing(net, h, endpoints, bypass, hosts)
    ensures (forall ip | ip in bypass :: LeadsTo(net, later, hosts, ip)) <==>
            Rebuilt(net, h, endpoints, probe) == Rebuilt(net, h, endpoints, later)
  {
    var a, b := Rebuilt(net, h, endpoints, probe), Rebuilt(net, h, endpoints, later);
    assert a.Keys == b.Keys == BypassSet(net, h, endpoints);
    assert forall ip :: ip in bypass <==> ip in Members(bypass);
    if forall ip | ip in bypass :: LeadsTo(net, later, hosts, ip) {
      forall ip | ip in a ensures a[ip] == b[ip] { assert ip in bypass; }
    }
  }

  lemma MembersMore(s: seq<string>, x: string)
    ensures Members(s + [x]) == Members(s) + {x}
  {}

  /** One more endpoint in a rebuild. */
  lemma RebuiltMore(net: Net, h: Hijack, endpoints: seq<string>, ip: string, g: Gateways, skip: set<string>, hosts: map<string, Target>)
    ensures var before, after := Rebuilt(net, h, endpoints, g) - skip, Rebuilt(net, h, endpoints + [ip], g) - skip;
      if ip in skip || !Bypassed(net, h, ip) then after == before
      else
        && after.Keys == before.Keys + {ip}
        && hosts + after == (hosts + before)[ip := TargetOf(net.family(ip).value, g)]
    ensures (Rebuilt(net, h, endpoints + [ip], g) - skip).Keys == Rebuilt(net, h, endpoints + [ip], g).Keys - skip
    ensures (Rebuilt(net, h, endpoints, g) - skip).Keys == Rebuilt(net, h, endpoints, g).Keys - skip
  {
    RebuiltAdds(net, h, endpoints, ip, g);
    var before, after := Rebuilt(net, h, endpoints, g), Rebuilt(net, h, endpoints + [ip], g);
    hide Rebuilt, TargetOf;
    SkipKeys(before, skip);
    SkipKeys(after, skip);
    if Bypassed(net, h, ip) {
      var target := TargetOf(net.family(ip).value, g);
      hide Bypassed;
      SkipUpdate(before, ip, target, skip, hosts);
    }
  }

  lemma RebuiltAdds(net: Net, h: Hijack, endpoints: seq<string>, ip: string, g: Gateways)
    ensures Rebuilt(net, h, endpoints + [ip], g) ==
            if Bypassed(net, h, ip) then Rebuilt(net, h, endpoints, g)[ip := TargetOf(net.family(ip).value, g)] else Rebuilt(net, h, endpoints, g)
  {
    hide Bypassed, TargetOf;
  }

  lemma SkipKeys(m: map<string, Target>, skip: set<string>)
    ensures (m - skip).Keys == m.Keys - skip
  {}

  lemma SkipUpdate(m: map<string, Target>, ip: string, target: Target, skip: set<string>, hosts: map<string, Target>)
    ensures var after := m[ip := target] - skip;
      if ip in skip then after == m - skip
      else after.Keys == (m - skip).Keys + {ip} && hosts + after == (hosts + (m - skip))[ip := target]
  {
    if ip in skip {
      assert m[ip := target] - skip == m - skip;
    } else {
      assert m[ip := target] - skip == (m - skip)[ip := target];
    }
  }

  // ---- longest-match forwarding ----

  datatype Hop = Tunnel | Host(target: Target) | Elsewhere

  /** A route of one family: the first len bits of its base. */
  datatype Route = Route(base: nat, len: nat, hop: Hop)

  predicate Matches(width: nat, dst: nat, r: Route) {
    r.len <= width && dst / Pow2(width - r.len) == r.base / Pow2(width - r.len)
  }

  /** r is a longest match: the route that forwards dst. */
  ghost predicate Forwards(width: nat, table: set<Route>, dst: nat, r: Route) {
    r in table && Matches(width, dst, r) && forall q | q in table && Matches(width, dst, q) :: q.len <= r.len
  }

  lemma {:induction false} SomeLongest(width: nat, table: set<Route>, dst: nat, r: Route)
    requires r in table && Matches(width, dst, r)
    ensures exists l :: Forwards(width, table, dst, l)
    decreases |table|
  {
    if exists q :: q in table && Matches(width, dst, q) && q.len > r.len {
      var q :| q in table && Matches(width, dst, q) && q.len > r.len;
      SomeLongest(width, table - {r}, dst, q);
      var l :| Forwards(width, table - {r}, dst, l);
      assert Forwards(width, table, dst, l);
    } else {
      assert Forwards(width, table, dst, r);
    }
  }

  function HostRoutes(hosts: map<string, Target>, value: string -> nat, width: nat): set<Route> {
    set ip | ip in hosts :: Route(value(ip), width, Host(hosts[ip]))
  }

  function Halves(width: nat): set<Route>
    requires width > 0
  {
    {Route(0, 1, Tunnel), Route(Pow2(width - 1), 1, Tunnel)}
  }

  /** The kernel's table for a hijacked family. */
  function Table(width: nat, allowed: set<Route>, hosts: map<string, Target>, value: string -> nat, foreign: set<Route>): set<Route>
    requires width > 0
  {
    Halves(width) + allowed + HostRoutes(hosts, value, width) + foreign
  }

  lemma HalfOf(dst: nat, half: nat)
    requires dst < 2 * half
    ensures dst / half == 0 / half || dst / half == half / half
  {
    if dst >= half {
      assert dst / half == 1 && half / half == 1;
    } else {
      assert dst / half == 0 && 0 / half == 0;
    }
  }

  lemma HalvesMatch(width: nat, dst: nat)
    requires width > 0 && dst < Pow2(width)
    ensures Matches(width, dst, Route(0, 1, Tunnel)) || Matches(width, dst, Route(Pow2(width - 1), 1, Tunnel))
  {
    var half := Pow2(width - 1);
    assert Pow2(width) == 2 * half;
    hide Pow2;
    HalfOf(dst, half);
  }

  lemma HostMatches(width: nat, dst: nat, r: Route)
    requires r.len == width
    ensures Matches(width, dst, r) <==> dst == r.base
  {
    assert Pow2(0) == 1;
  }

  /**
   * An address that is no bypassed endpoint, and that no foreign route beyond a
   * default matches, is forwarded into the tunnel.
   */
  lemma EverythingElseIsTunnelled(width: nat, allowed: set<Route>, hosts: map<string, Target>, value: string -> nat, foreign: set<Route>, dst: nat)
    requires width > 0 && dst < Pow2(width)
    requires forall r | r in allowed :: r.hop == Tunnel
    requires forall ip | ip in hosts :: value(ip) != dst
    requires forall r | r in foreign && Matches(width, dst, r) :: r.len == 0
    ensures var table := Table(width, allowed, hosts, value, foreign);
      && (exists r :: Forwards(width, table, dst, r))
      && (forall r | Forwards(width, table, dst, r) :: r.hop == Tunnel)
  {
    var table := Table(width, allowed, hosts, value, foreign);
    HalvesMatch(width, dst);
    var half := if Matches(width, dst, Route(0, 1, Tunnel)) then Route(0, 1, Tunnel) else Route(Pow2(width - 1), 1, Tunnel);
    assert half in table;
    SomeLongest(width, table, dst, half);
    forall r | Forwards(width, table, dst, r) ensures r.hop == Tunnel {
      assert r.len >= 1;
      if r in HostRoutes(hosts, value, width) {
        HostMatches(width, dst, r);
      }
    }
  }

  /** The host routes of one family. */
  function OfFamily(net: Net, f: Family, hosts: map<string, Target>): map<string, Target> {
    map ip | ip in hosts && net.family(ip) == Some(f) :: hosts[ip]
  }

  /** An endpoint with a host route, and no other kind of route to it alone, goes where that route leads. */
  lemma EndpointsGoAround(width: nat, allowed: set<Route>, hosts: map<string, Target>, value: string -> nat, foreign: set<Route>, ip: string)
    requires width > 1 && ip in hosts && value(ip) < Pow2(width)
    requires forall other | other in hosts && value(other) == value(ip) :: hosts[other] == hosts[ip]
    requires forall r | r in allowed + foreign && Matches(width, value(ip), r) :: r.len < width
    ensures var table := Table(width, allowed, hosts, value, foreign);
      && (exists r :: Forwards(width, table, value(ip), r))
      && (forall r | Forwards(width, table, value(ip), r) :: r.hop == Host(hosts[ip]))
  {
    var table := Table(width, allowed, hosts, value, foreign);
    var host := Route(value(ip), width, Host(hosts[ip]));
    HostMatches(width, value(ip), host);
    assert host in table;
    SomeLongest(width, table, value(ip), host);
    forall r | Forwards(width, table, value(ip), r) ensures r.hop == Host(hosts[ip]) {
      assert host.len <= r.len;
      if r in HostRoutes(hosts, value, width) {
        HostMatches(width, value(ip), r);
      }
    }
  }

  /** Where the packets of a hijacked family go: its endpoints to the family's gateway or nowhere, the rest into the tunnel. */
  ghost predicate GoesRight(net: Net, f: Family, g: Gateways, hosts: map<string, Target>, value: string -> nat, dst: nat, hop: Hop) {
    if exists ip :: ip in hosts && value(ip) == dst then hop.Host? && LeavesBy(f, g, hop.target) else hop == Tunnel
  }

  /**
   * After a rebuild every address of a hijacked family that no foreign route
   * beyond a default matches is forwarded, to the tunnel unless it is an endpoint.
   */
  lemma FullTunnelForwarding(net: Net, h: Hijack, f: Family, live: seq<string>, g: Gateways, width: nat, allowed: set<Route>,
                             value: string -> nat, foreign: set<Route>, dst: nat)
    requires width > 1 && dst < Pow2(width) && Hijacked(h, f)
    requires forall r | r in allowed :: r.hop == Tunnel
    requires forall r | r in foreign && Matches(width, dst, r) :: r.len == 0
    requires (exists ip :: ip in live && net.family(ip) == Some(f) && value(ip) == dst) ==>
             forall r | r in allowed && Matches(width, dst, r) :: r.len < width
    ensures var hosts := OfFamily(net, f, Rebuilt(net, h, live, g));
      var table := Table(width, allowed, hosts, value, foreign);
      && (forall ip :: ip in hosts <==> ip in live && ip != "" && net.family(ip) == Some(f))
      && (exists r :: Forwards(width, table, dst, r))
      && (forall r | Forwards(width, table, dst, r) :: GoesRight(net, f, g, hosts, value, dst, r.hop))
  {
    var hosts := OfFamily(net, f, Rebuilt(net, h, live, g));
    FamilyGoesAround(net, h, f, live, g);
    hide Rebuilt, OfFamily, LeavesBy, Table, Forwards, Matches, Pow2;
    if exists ip :: ip in hosts && value(ip) == dst {
      var ip :| ip in hosts && value(ip) == dst;
      assert forall other | other in hosts :: hosts[other] == hosts[ip];
      EndpointsGoAround(width, allowed, hosts, value, foreign, ip);
    } else {
      EverythingElseIsTunnelled(width, allowed, hosts, value, foreign, dst);
    }
  }

  /** The endpoints of a hijacked family all leave the same way, by its gateway. */
  lemma FamilyGoesAround(net: Net, h: Hijack, f: Family, live: seq<string>, g: Gateways)
    requires Hijacked(h, f)
    ensures var hosts := OfFamily(net, f, Rebuilt(net, h, live, g));
      && (forall ip :: ip in hosts <==> ip in live && ip != "" && net.family(ip) == Some(f))
      && (forall ip | ip in hosts :: LeavesBy(f, g, hosts[ip]))
      && (forall ip, other | ip in hosts && other in hosts :: hosts[ip] == hosts[other])
  {}
}
