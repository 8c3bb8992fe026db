// The helper's kill-switch policy: what it remembers about each tunnel, the
// critical sections that change it, and the ruleset it derives
// (internal/helper/firewall.go, helper.go, handlers.go).
module KillSwitch {
  import opened Common
  import opened Rules

  type Name = string

  datatype Protocol = WireGuard | OpenVPN

  /** A server endpoint that needs no lookup, with its transport. */
  datatype Literal = Literal(proto: string, ep: string)

  datatype HostPort = HostPort(host: string, port: string, proto: string)

  /** A tunnel's configured servers: IP literals and hostnames to resolve. */
  datatype Config = Config(literals: seq<Literal>, hosts: seq<HostPort>)

  /** The server passes remembered for a tunnel that may go down. */
  datatype Cached = Cached(passes: seq<Pass>, hostname: bool, resolved: seq<Literal>)

  /** One tunnel that is up, as the firewall sees it. */
  datatype LiveTunnel = LiveTunnel(name: Name, pass: Pass)

  const NOTHING_CACHED := Cached([], false, [])

  /** Everything the helper remembers about one tunnel name. */
  datatype Slot = Slot(
    wgConfig: Option<Config>,     // cached for reconnect, by protocol
    ovpnConfig: Option<Config>,
    auto: Option<bool>,           // auto-reconnect
    epoch: nat,                   // user Disconnects so far
    held: nat,                    // retry sequences holding the tunnel
    pending: bool,                // held until a sequence or a connect takes over
    blocked: Option<Protocol>,    // dead and kept blocked
    through: bool,                // pending on account of another tunnel's block
    dying: bool,                  // between the OpenVPN manager's two death hooks
    cached: Option<Cached>,       // last known servers
    servers: Option<seq<string>>, // resolvers of its open lookup windows
    windows: nat)                 // lookup windows open

  const FRESH_SLOT := Slot(None, None, None, 0, 0, false, None, false, false, None, None, 0)

  // ---- critical sections, each on the slot of the tunnel it is about ----

  predicate Auto(x: Slot) { x.auto == Some(true) }

  predicate Wanted(x: Slot) { x.wgConfig.Some? || x.ovpnConfig.Some? }

  predicate IsHeld(x: Slot) { x.held > 0 || x.pending }

  predicate HasHosts(x: Slot) {
    (x.wgConfig.Some? && x.wgConfig.value.hosts != []) || (x.ovpnConfig.Some? && x.ovpnConfig.value.hosts != [])
  }

  /** A retry sequence takes its hold and takes over the tunnel's pending hold or block. */
  function HoldSlot(x: Slot): Slot {
    x.(held := x.held + 1, pending := false, through := false, blocked := None)
  }

  /** A retry sequence gives its hold back; the last one to go may leave a block. */
  function ReleaseSlot(x: Slot, killSwitch: bool, up: bool): Slot {
    if x.held > 1 then x.(held := x.held - 1)
    else x.(held := 0,
            blocked := if !up && !x.pending && Auto(x) && killSwitch
                       then Some(if x.ovpnConfig.Some? then OpenVPN else WireGuard) else x.blocked)
  }

  function OpenWindowSlot(x: Slot, resolvers: seq<string>): Slot {
    x.(windows := x.windows + 1, servers := Some(resolvers))
  }

  function CloseWindowSlot(x: Slot): Slot {
    if x.windows > 1 then x.(windows := x.windows - 1) else x.(windows := 0, servers := None)
  }

  function StoreResolvedSlot(x: Slot, answers: seq<Literal>): Slot {
    var c := if x.cached.Some? then x.cached.value else NOTHING_CACHED;
    x.(cached := Some(Cached(c.passes, true, if answers != [] then answers else c.resolved)))
  }

  /** y knows the servers that x knew, but for earlier answers that new ones replace, and the answers. */
  ghost predicate Learnt(x: Slot, answers: seq<Literal>, y: Slot) {
    && (forall l | l in answers :: Known(y, l.proto, l.ep))
    && (answers == [] ==> forall proto, ep :: Known(y, proto, ep) <==> Known(x, proto, ep))
    && (forall proto, ep | Known(y, proto, ep) :: Known(x, proto, ep) || Literal(proto, ep) in answers)
  }

  lemma LearntMeans(x: Slot, answers: seq<Literal>)
    ensures Learnt(x, answers, StoreResolvedSlot(x, answers))
  {
    var y := StoreResolvedSlot(x, answers);
    forall l | l in answers ensures Known(y, l.proto, l.ep) { assert Literal(l.proto, l.ep) == l; }
  }

  /** An active OpenVPN process is about to leave the manager's table unexpectedly. */
  function DyingSlot(x: Slot, killSwitch: bool): Slot {
    if x.ovpnConfig.None? || (!Auto(x) && !killSwitch) then x else x.(dying := true, pending := true)
  }

  function DiedSlot(x: Slot): Slot { x.(dying := false) }

  /** A dead tunnel is held for its reconnect, or forgotten and perhaps blocked. */
  function ForgetOrHoldSlot(x: Slot, killSwitch: bool, proto: Protocol): Slot {
    if Auto(x) then x.(pending := true, through := false)
    else
      x.(wgConfig := if proto == WireGuard then None else x.wgConfig,
         ovpnConfig := if proto == OpenVPN then None else x.ovpnConfig,
         auto := None, pending := false, through := false,
         blocked := if Wanted(x) && killSwitch then Some(proto) else x.blocked)
  }

  lemma ForgetMeans(x: Slot, killSwitch: bool, proto: Protocol)
    ensures var y := ForgetOrHoldSlot(x, killSwitch, proto);
      && (IsHeld(y) <==> Auto(x) || x.held > 0)
      && y.blocked == (if !Auto(x) && Wanted(x) && killSwitch then Some(proto) else x.blocked)
  {}

  /** The final status of an OpenVPN process whose entry is gone. */
  function GoneSlot(x: Slot, killSwitch: bool): Slot {
    if x.dying || !x.pending || x.held > 0 then x
    else x.(pending := false, through := false,
            blocked := if killSwitch && !x.through then Some(OpenVPN) else x.blocked)
  }

  /** A connect made it: its pending hold ends. */
  function SettleSlot(x: Slot): Slot { x.(pending := false, through := false) }

  predicate Lifts(x: Slot, killSwitch: bool, anyBlocked: bool) {
    x.blocked.Some? || (killSwitch && anyBlocked)
  }

  /** A connect turns a block, its own or another tunnel's, into a pending hold. */
  function LiftSlot(x: Slot, killSwitch: bool, anyBlocked: bool, resolved: seq<Literal>): Slot {
    var y := if Lifts(x, killSwitch, anyBlocked)
             then x.(blocked := None, pending := true, through := x.blocked.None?) else x;
    if resolved != [] then StoreResolvedSlot(y, resolved) else y
  }

  lemma LiftMeans(x: Slot, killSwitch: bool, anyBlocked: bool, resolved: seq<Literal>)
    ensures var y := LiftSlot(x, killSwitch, anyBlocked, resolved);
      && Learnt(x, resolved, y)
      && if Lifts(x, killSwitch, anyBlocked) then y.pending && y.blocked.None? && (y.through <==> x.blocked.None?)
         else IsHeld(y) == IsHeld(x) && y.blocked == x.blocked
  {
    var z := if Lifts(x, killSwitch, anyBlocked)
             then x.(blocked := None, pending := true, through := x.blocked.None?) else x;
    LearntMeans(z, resolved);
    assert forall proto, ep :: Known(z, proto, ep) <==> Known(x, proto, ep);
  }

  /** A failed connect gives back what it lifted. */
  function RestoreBlockSlot(x: Slot, killSwitch: bool, proto: Protocol): Slot {
    x.(pending := false, through := false,
       blocked := if killSwitch && !x.through then Some(proto) else x.blocked)
  }

  function CacheConfigSlot(x: Slot, proto: Protocol, cfg: Config, auto: bool): Slot {
    x.(wgConfig := if proto == WireGuard then Some(cfg) else x.wgConfig,
       ovpnConfig := if proto == OpenVPN then Some(cfg) else x.ovpnConfig,
       auto := Some(auto))
  }

  /** A failed WireGuard connect puts the previous values back; OpenVPN drops them. */
  function UncacheConfigSlot(x: Slot, proto: Protocol, prevCfg: Option<Config>, prevAuto: Option<bool>): Slot {
    if proto == OpenVPN then x.(ovpnConfig := None, auto := None)
    else x.(wgConfig := prevCfg, auto := prevAuto)
  }

  function DisconnectSlot(x: Slot): Slot {
    x.(epoch := x.epoch + 1, wgConfig := None, ovpnConfig := None, auto := None,
       held := 0, pending := false, through := false, blocked := None)
  }

  /** A live tunnel is no longer blocked and its transport is remembered. */
  function RecordSlot(x: Slot, live: Option<Pass>): Slot {
    if live.None? then x
    else x.(blocked := None,
            cached := Some(Cached([Pass("", live.value.proto, live.value.endpoints)], HasHosts(x),
                                  if x.cached.Some? then x.cached.value.resolved else [])))
  }

  /** Only live, held or pending tunnels and wanted OpenVPN ones stay in the cache. */
  function PruneSlot(x: Slot, up: bool): Slot {
    if up || IsHeld(x) || x.ovpnConfig.Some? then x else x.(cached := None)
  }

  /** The part of applyFirewall that concerns one tunnel. */
  function ApplySlot(x: Slot, live: Option<Pass>): Slot {
    PruneSlot(RecordSlot(x, live), live.Some?)
  }

  // ---- the policy handlers: the change, the apply and a rollback in one step ----

  /** Turning the kill switch off releases every blocked tunnel. */
  function SwitchSlot(x: Slot, on: bool): Slot { if on then x else x.(blocked := None) }

  function SetKillSwitchSlot(x: Slot, on: bool, live: Option<Pass>, loaded: bool): Slot {
    var y := ApplySlot(SwitchSlot(x, on), live);
    if loaded || on || x.blocked.None? then y else y.(blocked := x.blocked)
  }

  // ---- the whole state ----

  /** The helper's policy fields, all guarded by one mutex; a missing name is FRESH_SLOT. */
  datatype Policy = Policy(killSwitch: bool, dnsProtection: bool, slots: map<Name, Slot>)

  function SlotAt(p: Policy, n: Name): Slot { if n in p.slots then p.slots[n] else FRESH_SLOT }

  ghost predicate AnyBlocked(p: Policy) { exists n :: SlotAt(p, n).blocked.Some? }

  // ---- which ruleset a state calls for ----

  function LiveNames(live: seq<LiveTunnel>): set<Name> { set t | t in live :: t.name }

  /** What the live list says about n; the last entry counts. */
  function LiveAt(live: seq<LiveTunnel>, n: Name): (r: Option<Pass>)
    ensures r.Some? <==> n in LiveNames(live)
  {
    if live == [] then None
    else
      var last := live[|live|-1];
      assert live == live[..|live|-1] + [last];
      if last.name == n then Some(last.pass) else LiveAt(live[..|live|-1], n)
  }

  /** One ApplyFirewall leaves p as q. */
  ghost predicate Applied(p: Policy, live: seq<LiveTunnel>, q: Policy) {
    && p.killSwitch == q.killSwitch && p.dnsProtection == q.dnsProtection
    && forall n :: SlotAt(q, n) == ApplySlot(SlotAt(p, n), LiveAt(live, n))
  }

  /** It lifts the blocks of the tunnels that are up, and holds none, wants none and forgets no wish. */
  lemma AppliedMeans(p: Policy, live: seq<LiveTunnel>, q: Policy, n: Name)
    requires Applied(p, live, q)
    ensures var x, y := SlotAt(p, n), SlotAt(q, n);
      && y.blocked == (if n in LiveNames(live) then None else x.blocked)
      && y == x.(blocked := y.blocked, cached := y.cached)
      && (n !in LiveNames(live) ==> y.cached == (if IsHeld(x) || x.ovpnConfig.Some? then x.cached else None))
  {}

  predicate MultiRemote(x: Slot) {
    x.ovpnConfig.Some? && |x.ovpnConfig.value.literals| + |x.ovpnConfig.value.hosts| > 1
  }

  function ConfiguredLiterals(x: Slot): seq<Literal> {
    (if x.wgConfig.Some? then x.wgConfig.value.literals else []) +
    (if x.ovpnConfig.Some? then x.ovpnConfig.value.literals else [])
  }

  predicate HasIface(passes: seq<Pass>, iface: string) { exists t | t in passes :: t.iface == iface }

  function LivePasses(live: seq<LiveTunnel>): (r: seq<Pass>)
    ensures forall t :: t in r <==> exists l | l in live :: l.pass == t
  {
    if live == [] then []
    else
      var r := LivePasses(live[..|live|-1]) + [live[|live|-1].pass];
      assert live == live[..|live|-1] + [live[|live|-1]];
      r
  }

  /** The list of passes lets this transport and endpoint through. */
  ghost predicate Passed(passes: seq<Pass>, proto: string, ep: string) {
    exists t | t in passes :: t.proto == proto && ep in t.endpoints
  }

  /** Every server pass known for a tunnel: last used, configured literals, resolved hostnames. */
  ghost predicate Known(x: Slot, proto: string, ep: string) {
    var c := if x.cached.Some? then x.cached.value else NOTHING_CACHED;
    || Passed(c.passes, proto, ep)
    || Literal(proto, ep) in ConfiguredLiterals(x)
    || Literal(proto, ep) in c.resolved
  }

  /** The tunnels whose every known server stays reachable. */
  predicate PassesAll(p: Policy, live: seq<LiveTunnel>, n: Name) {
    if n in LiveNames(live) then MultiRemote(SlotAt(p, n)) else IsHeld(SlotAt(p, n))
  }

  ghost predicate KnownToSome(p: Policy, live: seq<LiveTunnel>, proto: string, ep: string) {
    exists n :: PassesAll(p, live, n) && Known(ApplySlot(SlotAt(p, n), LiveAt(live, n)), proto, ep)
  }

  /** A tunnel is down but held: its servers, and nothing else of it, are passed. */
  ghost predicate HoldsOne(p: Policy, live: seq<LiveTunnel>) {
    exists n :: IsHeld(SlotAt(p, n)) && n !in LiveNames(live)
  }

  ghost predicate Blocks(p: Policy, live: seq<LiveTunnel>) {
    p.killSwitch && exists n :: SlotAt(p, n).blocked.Some? && n !in LiveNames(live)
  }

  ghost predicate WindowServer(p: Policy, s: string) {
    exists n :: SlotAt(p, n).servers.Some? && s in SlotAt(p, n).servers.value
  }

  const NO_RULES := Ruleset(false, [], false, [], [])

  /** The tunnel entries of the ruleset, as interfaces and as passed endpoints. */
  ghost predicate ExactTunnels(p: Policy, live: seq<LiveTunnel>, tunnels: seq<Pass>) {
    && (tunnels == [] <==> live == [] && !HoldsOne(p, live))
    && (forall i | i != "" :: HasIface(tunnels, i) <==> HasIface(LivePasses(live), i))
    && (forall proto, ep :: Passed(tunnels, proto, ep) <==>
          Passed(LivePasses(live), proto, ep) || KnownToSome(p, live, proto, ep))
    && (HoldsOne(p, live) ==> HasIface(tunnels, ""))
  }

  /**
   * The ruleset is exactly what policy p and the live tunnels call for: no rules
   * at all when nothing is live, held or blocked; otherwise the live interfaces,
   * the live transports, every known server of a live multi-remote or of a held
   * tunnel, and the resolvers of the open lookup windows. A merely blocked
   * tunnel contributes nothing but the block itself.
   */
  ghost predicate Exact(p: Policy, live: seq<LiveTunnel>, dns: seq<string>, rs: Ruleset) {
    if live == [] && !HoldsOne(p, live) && !Blocks(p, live) then rs == NO_RULES
    else
      && rs.killSwitch == p.killSwitch
      && rs.dnsProtection == p.dnsProtection
      && rs.dnsServers == dns
      && ExactTunnels(p, live, rs.tunnels)
      && (forall s :: s in rs.lookupServers <==> WindowServer(p, s))
  }

  lemma PassedConcat(a: seq<Pass>, b: seq<Pass>)
    ensures forall pr, e :: Passed(a + b, pr, e) <==> Passed(a, pr, e) || Passed(b, pr, e)
  {
    assert forall t :: t in a + b <==> t in a || t in b;
  }

  // ---- building pass lists ----

  /** Passes built by AddPass: endpoint-only, none empty. */
  predicate EndpointOnly(passes: seq<Pass>) {
    forall t | t in passes :: t.iface == "" && t.endpoints != []
  }

  ghost predicate NoRepeats(s: seq<string>) { forall i, j | 0 <= i < j < |s| :: s[i] != s[j] }

  /** One entry a transport, and no endpoint twice in it. */
  ghost predicate Compact(passes: seq<Pass>) {
    && (forall i, j | 0 <= i < j < |passes| :: passes[i].proto != passes[j].proto)
    && forall i | 0 <= i < |passes| :: NoRepeats(passes[i].endpoints)
  }

  /** Adds one endpoint to the entry of its transport, unless it is there. */
  method AddPass(passes: seq<Pass>, proto: string, ep: string) returns (r: seq<Pass>)
    requires EndpointOnly(passes)
    ensures EndpointOnly(r) && r != [] && (Compact(passes) ==> Compact(r))
    ensures forall pr, e :: Passed(r, pr, e) <==> Passed(passes, pr, e) || (pr == proto && e == ep)
  {
    for i := 0 to |passes|
      invariant forall j | 0 <= j < i :: passes[j].proto != proto
    {
      if passes[i].proto == proto {
        if ep in passes[i].endpoints {
          return passes;
        }
        var t := passes[i].(endpoints := passes[i].endpoints + [ep]);
        r := passes[i := t];
        assert r[i] == t;
        assert passes[i] in passes;
        assert forall j | 0 <= j < |passes| && j != i :: r[j] == passes[j];
        assert forall u | u in passes :: u == passes[i] || u in r;
        assert forall u | u in r :: u == t || u in passes;
        forall pr, e ensures Passed(r, pr, e) <==> Passed(passes, pr, e) || (pr == proto && e == ep) {
          if pr == proto && (e == ep || e in passes[i].endpoints) {
            assert t in r;
          }
        }
        return;
      }
    }
    var t := Pass("", proto, [ep]);
    r := passes + [t];
    assert t in r;
  }

  method AddLiterals(passes: seq<Pass>, literals: seq<Literal>) returns (r: seq<Pass>)
    requires EndpointOnly(passes)
    ensures EndpointOnly(r) && (passes != [] || literals != [] ==> r != []) && (Compact(passes) ==> Compact(r))
    ensures forall pr, e :: Passed(r, pr, e) <==> Passed(passes, pr, e) || Literal(pr, e) in literals
  {
    r := passes;
    for i := 0 to |literals|
      invariant EndpointOnly(r) && (passes != [] || i > 0 ==> r != []) && (Compact(passes) ==> Compact(r))
      invariant forall pr, e :: Passed(r, pr, e) <==> Passed(passes, pr, e) || Literal(pr, e) in literals[..i]
    {
      assert literals[..i+1] == literals[..i] + [literals[i]];
      r := AddPass(r, literals[i].proto, literals[i].ep);
    }
    assert literals[..|literals|] == literals;
  }

  method AddPasses(passes: seq<Pass>, more: seq<Pass>) returns (r: seq<Pass>)
    requires EndpointOnly(passes)
    ensures EndpointOnly(r) && (Compact(passes) ==> Compact(r))
    ensures forall pr, e :: Passed(r, pr, e) <==> Passed(passes, pr, e) || Passed(more, pr, e)
  {
    r := passes;
    for i := 0 to |more|
      invariant EndpointOnly(r) && (Compact(passes) ==> Compact(r))
      invariant forall pr, e :: Passed(r, pr, e) <==> Passed(passes, pr, e) || Passed(more[..i], pr, e)
    {
      var t := more[i];
      assert more[..i+1] == more[..i] + [t];
      ghost var before := r;
      for j := 0 to |t.endpoints|
        invariant EndpointOnly(r) && (Compact(passes) ==> Compact(r))
        invariant forall pr, e :: Passed(r, pr, e) <==> Passed(before, pr, e) || (pr == t.proto && e in t.endpoints[..j])
      {
        assert t.endpoints[..j+1] == t.endpoints[..j] + [t.endpoints[j]];
        r := AddPass(r, t.proto, t.endpoints[j]);
      }
      assert t.endpoints[..|t.endpoints|] == t.endpoints;
    }
    assert more[..|more|] == more;
  }

  /** What some tunnel of a set is known to use, once the live ones are recorded. */
  ghost predicate KnownToAny(p: Policy, names: set<Name>, proto: string, ep: string) {
    exists n | n in names :: Known(SlotAt(p, n), proto, ep)
  }

  /** The three parts of the tunnel list together pass exactly what they must. */
  lemma TunnelsExact(p: Policy, q: Policy, live: seq<LiveTunnel>, multi: seq<Pass>, multiNames: set<Name>,
                     heldPasses: seq<Pass>, heldNames: set<Name>)
    requires Recorded(p, live, q)
    requires EndpointOnly(multi) && (live == [] ==> multi == [])
    requires forall n :: n in multiNames <==> n in LiveNames(live) && MultiRemote(SlotAt(q, n))
    requires forall n :: n in heldNames <==> IsHeld(SlotAt(q, n)) && n !in LiveNames(live)
    requires forall t | t in heldPasses :: t.iface == ""
    requires heldPasses != [] <==> heldNames != {}
    requires forall pr, e :: Passed(multi, pr, e) <==> KnownToAny(q, multiNames, pr, e)
    requires forall pr, e :: Passed(heldPasses, pr, e) <==> KnownToAny(q, heldNames, pr, e)
    ensures ExactTunnels(p, live, LivePasses(live) + multi + heldPasses)
  {
    var tunnels := LivePasses(live) + multi + heldPasses;
    assert HoldsOne(p, live) <==> heldNames != {};
    if live != [] {
      assert live[0].pass in LivePasses(live);
    }
    if heldPasses != [] {
      assert heldPasses[0] in tunnels;
    }
    PassedConcat(LivePasses(live), multi);
    PassedConcat(LivePasses(live) + multi, heldPasses);
    forall pr, e
      ensures KnownToSome(p, live, pr, e) <==> KnownToAny(q, multiNames, pr, e) || KnownToAny(q, heldNames, pr, e)
    {
      assert forall n :: PassesAll(p, live, n) <==> n in multiNames || n in heldNames;
      assert forall n | n in multiNames || n in heldNames ::
        ApplySlot(SlotAt(p, n), LiveAt(live, n)) == RecordSlot(SlotAt(p, n), LiveAt(live, n));
    }
    assert forall t :: t in tunnels <==> t in LivePasses(live) || t in multi || t in heldPasses;
  }

  ghost predicate Recorded(p: Policy, live: seq<LiveTunnel>, q: Policy) {
    && p.killSwitch == q.killSwitch && p.dnsProtection == q.dnsProtection
    && forall n :: SlotAt(q, n) == RecordSlot(SlotAt(p, n), LiveAt(live, n))
  }

  /** One more live tunnel is recorded. */
  lemma RecordedMore(p: Policy, live: seq<LiveTunnel>, mid: Policy, t: LiveTunnel, q: Policy)
    requires Recorded(p, live, mid) && mid.killSwitch == q.killSwitch && mid.dnsProtection == q.dnsProtection
    requires SlotAt(q, t.name) == RecordSlot(SlotAt(mid, t.name), Some(t.pass))
    requires forall n | n != t.name :: SlotAt(q, n) == SlotAt(mid, n)
    ensures Recorded(p, live + [t], q)
  {
    assert (live + [t])[..|live|] == live;
  }

  function Switched(p: Policy, on: bool): Policy {
    p.(killSwitch := on, slots := map n | n in p.slots :: SwitchSlot(p.slots[n], on))
  }

  lemma WindowsSame(p: Policy, live: seq<LiveTunnel>, q: Policy)
    requires Recorded(p, live, q)
    ensures forall s :: WindowServer(p, s) <==> WindowServer(q, s)
  {
    assert forall n :: SlotAt(q, n).servers == SlotAt(p, n).servers;
  }

  /** With the tunnels, the resolvers and the block looked up, the ruleset is exact. */
  lemma RulesAreExact(p: Policy, q: Policy, live: seq<LiveTunnel>, dns: seq<string>, tunnels: seq<Pass>, servers: seq<string>, anyBlocked: bool)
    requires Recorded(p, live, q) && ExactTunnels(p, live, tunnels)
    requires (anyBlocked <==> AnyBlocked(q)) && forall s :: s in servers <==> WindowServer(q, s)
    ensures Exact(p, live, dns, if |tunnels| == 0 && !(p.killSwitch && anyBlocked) then NO_RULES
                                else Ruleset(p.killSwitch, tunnels, p.dnsProtection, dns, servers))
  {
    WindowsSame(p, live, q);
    BlocksAreLeft(p, q, live);
    hide Recorded, WindowServer, AnyBlocked, Blocks, HoldsOne, Passed, HasIface, KnownToSome;
  }

  /** A record lifts the blocks of the tunnels that are up. */
  lemma BlocksAreLeft(p: Policy, q: Policy, live: seq<LiveTunnel>)
    requires Recorded(p, live, q)
    ensures Blocks(p, live) <==> p.killSwitch && AnyBlocked(q)
  {
    assert AnyBlocked(q) <==> exists n :: SlotAt(p, n).blocked.Some? && n !in LiveNames(live);
  }

  lemma RecordedThenPruned(p: Policy, live: seq<LiveTunnel>, q: Policy, z: Policy)
    requires Recorded(p, live, q) && z.killSwitch == q.killSwitch && z.dnsProtection == q.dnsProtection
    requires forall n :: SlotAt(z, n) == PruneSlot(SlotAt(q, n), n in LiveNames(live))
    ensures Applied(p, live, z)
  {
    hide PruneSlot, RecordSlot, LiveNames;
  }

  /**
   * The helper. Go keeps one map per slot field, all keyed by tunnel name; here
   * they are one map of slots, which every critical section updates in place.
   */
  class Helper {
    var killSwitch: bool
    var dnsProtection: bool
    var slots: map<Name, Slot>

    function Snapshot(): Policy
      reads this
    {
      Policy(killSwitch, dnsProtection, slots)
    }

    function At(n: Name): Slot
      reads this
    {
      SlotAt(Snapshot(), n)
    }

    /** Only n's slot changed since the old state, and it became x. */
    twostate predicate Became(n: Name, x: Slot)
      reads this
    {
      && killSwitch == old(killSwitch) && dnsProtection == old(dnsProtection)
      && At(n) == x
      && forall m | m != n :: At(m) == old(At(m))
    }

    constructor ()
      ensures !killSwitch && !dnsProtection && forall n :: At(n) == FRESH_SLOT
    {
      killSwitch, dnsProtection, slots := false, false, map[];
    }

    method Update(n: Name, x: Slot)
      modifies this
      ensures Became(n, x)
    {
      slots := slots[n := x];
    }

    method HoldFirewall(n: Name)
      modifies this
      ensures Became(n, HoldSlot(old(At(n))))
      ensures At(n).held == old(At(n)).held + 1 && !At(n).pending && At(n).blocked.None? && !At(n).through
    {
      var x := At(n);
      x := x.(held := x.held + 1);
      x := x.(pending := false, through := false);
      x := x.(blocked := None);
      Update(n, x);
    }

    method ReleaseFirewall(n: Name, up: bool)
      modifies this
      ensures Became(n, ReleaseSlot(old(At(n)), killSwitch, up))
      ensures IsHeld(At(n)) <==> old(At(n)).held > 1 || old(At(n)).pending
      ensures At(n).blocked ==
        if old(At(n)).held <= 1 && !up && !old(At(n)).pending && Auto(old(At(n))) && killSwitch
        then Some(if old(At(n)).ovpnConfig.Some? then OpenVPN else WireGuard) else old(At(n)).blocked
    {
      var x := At(n);
      if x.held > 1 {
        x := x.(held := x.held - 1);
      } else {
        x := x.(held := 0);
        if !up && !x.pending && Auto(x) && killSwitch {
          x := x.(blocked := Some(if x.ovpnConfig.Some? then OpenVPN else WireGuard));
        }
      }
      Update(n, x);
    }

    method OpenLookupWindow(n: Name, resolvers: seq<string>)
      modifies this
      ensures Became(n, OpenWindowSlot(old(At(n)), resolvers))
      ensures forall r | r in resolvers :: WindowServer(Snapshot(), r)
    {
      var x := At(n);
      x := x.(windows := x.windows + 1);
      x := x.(servers := Some(resolvers));
      Update(n, x);
      assert SlotAt(Snapshot(), n).servers == Some(resolvers);
    }

    method CloseLookupWindow(n: Name)
      modifies this
      ensures Became(n, CloseWindowSlot(old(At(n))))
    {
      var x := At(n);
      if x.windows > 1 {
        Update(n, x.(windows := x.windows - 1));
        return;
      }
      Update(n, x.(windows := 0, servers := None));
    }

    /** The answers of a lookup are known from now on; without any, what was known stays. */
    method StoreResolved(n: Name, answers: seq<Literal>)
      modifies this
      ensures Became(n, StoreResolvedSlot(old(At(n)), answers))
      ensures Learnt(old(At(n)), answers, At(n)) && At(n).cached.Some? && At(n).cached.value.hostname
    {
      LearntMeans(At(n), answers);
      hide Learnt;
      var x := At(n);
      var c := if x.cached.Some? then x.cached.value else NOTHING_CACHED;
      c := c.(hostname := true);
      if |answers| > 0 {
        c := c.(resolved := answers);
      }
      Update(n, x.(cached := Some(c)));
    }

    method OnOVPNDying(n: Name)
      modifies this
      ensures Became(n, DyingSlot(old(At(n)), killSwitch))
      ensures IsHeld(At(n)) <==> IsHeld(old(At(n))) || (old(At(n)).ovpnConfig.Some? && (Auto(old(At(n))) || killSwitch))
      ensures At(n).blocked == old(At(n)).blocked
      ensures At(n).dying <==> old(At(n)).dying || (old(At(n)).ovpnConfig.Some? && (Auto(old(At(n))) || killSwitch))
    {
      var x := At(n);
      if x.ovpnConfig.None? || (!Auto(x) && !killSwitch) {
        return;
      }
      x := x.(dying := true);
      x := x.(pending := true);
      Update(n, x);
    }

    /** onOVPNDied, before it hands over to ForgetOrHold. */
    method OnOVPNDied(n: Name)
      modifies this
      ensures Became(n, DiedSlot(old(At(n))))
      ensures !At(n).dying && IsHeld(At(n)) == IsHeld(old(At(n))) && At(n).blocked == old(At(n)).blocked
    {
      Update(n, At(n).(dying := false));
    }

    method ForgetOrHold(n: Name, proto: Protocol)
      modifies this
      ensures Became(n, ForgetOrHoldSlot(old(At(n)), killSwitch, proto))
      ensures IsHeld(At(n)) <==> Auto(old(At(n))) || old(At(n)).held > 0
      ensures At(n).blocked ==
        if !Auto(old(At(n))) && Wanted(old(At(n))) && killSwitch then Some(proto) else old(At(n)).blocked
      ensures if Auto(old(At(n))) then Auto(At(n)) && At(n).wgConfig == old(At(n)).wgConfig && At(n).ovpnConfig == old(At(n)).ovpnConfig
        else
          && !Auto(At(n))
          && At(n).wgConfig == (if proto == WireGuard then None else old(At(n)).wgConfig)
          && At(n).ovpnConfig == (if proto == OpenVPN then None else old(At(n)).ovpnConfig)
    {
      ForgetMeans(At(n), killSwitch, proto);
      hide IsHeld;
      var x := At(n);
      if Auto(x) {
        Update(n, x.(pending := true, through := false));
        return;
      }
      var wanted := x.wgConfig.Some? || x.ovpnConfig.Some?;
      if proto == WireGuard {
        x := x.(wgConfig := None);
      } else {
        x := x.(ovpnConfig := None);
      }
      var block := if wanted && killSwitch then Some(proto) else x.blocked;
      Update(n, x.(auto := None, pending := false, through := false, blocked := block));
    }

    method OnOVPNGone(n: Name)
      modifies this
      ensures Became(n, GoneSlot(old(At(n)), killSwitch))
      ensures IsHeld(At(n)) <==> old(At(n)).held > 0 || (old(At(n)).dying && old(At(n)).pending)
      ensures At(n).blocked ==
        if old(At(n)).pending && old(At(n)).held == 0 && !old(At(n)).dying && killSwitch && !old(At(n)).through
        then Some(OpenVPN) else old(At(n)).blocked
    {
      var x := At(n);
      if x.dying {
        return;
      }
      var wasPending := x.pending && x.held == 0;
      var reblock := wasPending && killSwitch && !x.through;
      if wasPending {
        x := x.(pending := false, through := false);
      }
      if reblock {
        x := x.(blocked := Some(OpenVPN));
      }
      Update(n, x);
    }

    /** onOVPNActiveChange(active) and the end of a successful WireGuard connect. */
    method Settle(n: Name)
      modifies this
      ensures Became(n, SettleSlot(old(At(n))))
      ensures (IsHeld(At(n)) <==> old(At(n)).held > 0) && !At(n).through && At(n).blocked == old(At(n)).blocked
    {
      Update(n, At(n).(pending := false, through := false));
    }

    method HasBlocked() returns (b: bool)
      ensures b <==> AnyBlocked(Snapshot())
    {
      var todo := slots.Keys;
      while todo != {}
        invariant todo <= slots.Keys
        invariant forall n | n in slots && n !in todo :: slots[n].blocked.None?
      {
        var n :| n in todo;
        if slots[n].blocked.Some? {
          assert At(n).blocked.Some?;
          return true;
        }
        todo := todo - {n};
      }
      return false;
    }

    method LiftBlockForConnect(n: Name, resolved: seq<Literal>) returns (lifted: bool)
      modifies this
      ensures Became(n, LiftSlot(old(At(n)), killSwitch, AnyBlocked(old(Snapshot())), resolved))
      ensures lifted <==> old(At(n)).blocked.Some? || (killSwitch && exists m :: SlotAt(old(Snapshot()), m).blocked.Some?)
      ensures lifted ==> At(n).pending && At(n).blocked.None? && (At(n).through <==> old(At(n)).blocked.None?)
      ensures !lifted ==> IsHeld(At(n)) == IsHeld(old(At(n))) && At(n).blocked == old(At(n)).blocked
      ensures Learnt(old(At(n)), resolved, At(n))
    {
      var x := At(n);
      var any := HasBlocked();
      LiftMeans(x, killSwitch, any, resolved);
      hide IsHeld, Learnt;
      var wasBlocked := x.blocked.Some?;
      var passThrough := !wasBlocked && killSwitch && any;
      if wasBlocked || passThrough {
        x := x.(blocked := None, pending := true);
        x := x.(through := passThrough);
      }
      slots := slots[n := x];
      if |resolved| > 0 {
        StoreResolved(n, resolved);
      }
      lifted := wasBlocked || passThrough;
    }

    method RestoreBlock(n: Name, proto: Protocol)
      modifies this
      ensures Became(n, RestoreBlockSlot(old(At(n)), killSwitch, proto))
      ensures IsHeld(At(n)) <==> old(At(n)).held > 0
      ensures At(n).blocked == if killSwitch && !old(At(n)).through then Some(proto) else old(At(n)).blocked
    {
      var x := At(n);
      var passThrough := x.through;
      x := x.(pending := false, through := false);
      if killSwitch && !passThrough {
        x := x.(blocked := Some(proto));
      }
      Update(n, x);
    }

    method CacheConfig(n: Name, proto: Protocol, cfg: Config, reconnect: bool)
      returns (prevCfg: Option<Config>, prevAuto: Option<bool>)
      modifies this
      ensures Became(n, CacheConfigSlot(old(At(n)), proto, cfg, reconnect))
      ensures prevCfg == old(At(n)).wgConfig && prevAuto == old(At(n)).auto
      ensures Auto(At(n)) <==> reconnect
      ensures if proto == WireGuard then At(n).wgConfig == Some(cfg) && At(n).ovpnConfig == old(At(n)).ovpnConfig
        else At(n).ovpnConfig == Some(cfg) && At(n).wgConfig == old(At(n)).wgConfig
      ensures forall l | l in cfg.literals :: Known(At(n), l.proto, l.ep)
    {
      assert forall l | l in cfg.literals :: Literal(l.proto, l.ep) == l;
      var x := At(n);
      prevCfg, prevAuto := x.wgConfig, x.auto;
      if proto == WireGuard {
        x := x.(wgConfig := Some(cfg));
      } else {
        x := x.(ovpnConfig := Some(cfg));
      }
      Update(n, x.(auto := Some(reconnect)));
    }

    method UncacheConfig(n: Name, proto: Protocol, prevCfg: Option<Config>, prevAuto: Option<bool>)
      modifies this
      ensures Became(n, UncacheConfigSlot(old(At(n)), proto, prevCfg, prevAuto))
      ensures if proto == WireGuard then At(n).wgConfig == prevCfg && At(n).auto == prevAuto && At(n).ovpnConfig == old(At(n)).ovpnConfig
        else At(n).ovpnConfig.None? && !Auto(At(n)) && At(n).wgConfig == old(At(n)).wgConfig
    {
      var x := At(n).(auto := None);
      if proto == OpenVPN {
        Update(n, x.(ovpnConfig := None));
        return;
      }
      if prevAuto.Some? {
        x := x.(auto := prevAuto);
      }
      Update(n, x.(wgConfig := prevCfg));
    }

    /** The section of a user Disconnect. */
    method Disconnect(n: Name)
      modifies this
      ensures Became(n, DisconnectSlot(old(At(n))))
      ensures !IsHeld(At(n)) && At(n).blocked.None? && !Wanted(At(n)) && !Auto(At(n)) && At(n).epoch > old(At(n)).epoch
    {
      var x := At(n);
      x := x.(epoch := x.epoch + 1);
      x := x.(wgConfig := None, ovpnConfig := None, auto := None);
      x := x.(held := 0, pending := false, through := false, blocked := None);
      Update(n, x);
    }

    /** Every server pass known for n, in fresh entries. */
    method EndpointPasses(n: Name) returns (r: seq<Pass>)
      ensures EndpointOnly(r) && Compact(r)
      ensures forall pr, e :: Passed(r, pr, e) <==> Known(At(n), pr, e)
    {
      var x := At(n);
      var c := if x.cached.Some? then x.cached.value else NOTHING_CACHED;
      r := AddPasses([], c.passes);
      r := AddLiterals(r, ConfiguredLiterals(x));
      r := AddLiterals(r, c.resolved);
    }

    method RecordLive(live: seq<LiveTunnel>)
      modifies this
      ensures Recorded(old(Snapshot()), live, Snapshot())
    {
      for i := 0 to |live|
        invariant Recorded(old(Snapshot()), live[..i], Snapshot())
      {
        assert live[..i+1] == live[..i] + [live[i]];
        ghost var mid := Snapshot();
        RecordOne(live[i]);
        hide RecordSlot;
        assert forall n :: At(n) == SlotAt(Snapshot(), n);
        RecordedMore(old(Snapshot()), live[..i], mid, live[i], Snapshot());
      }
      assert live[..|live|] == live;
    }

    method RecordOne(t: LiveTunnel)
      modifies this
      ensures Became(t.name, RecordSlot(old(At(t.name)), Some(t.pass)))
    {
      var x := At(t.name).(blocked := None);
      var c := if x.cached.Some? then x.cached.value else NOTHING_CACHED;
      c := c.(passes := [Pass("", t.pass.proto, t.pass.endpoints)], hostname := HasHosts(x));
      slots := slots[t.name := x.(cached := Some(c))];
    }

    /** Live multi-remote OpenVPN tunnels keep all their remotes passed. */
    method PassMultiRemote(live: seq<LiveTunnel>) returns (r: seq<Pass>, ghost done: set<Name>)
      ensures EndpointOnly(r) && (live == [] ==> r == [])
      ensures forall n :: n in done <==> n in LiveNames(live) && MultiRemote(At(n))
      ensures forall pr, e :: Passed(r, pr, e) <==> KnownToAny(Snapshot(), done, pr, e)
    {
      r, done := [], {};
      for i := 0 to |live|
        invariant EndpointOnly(r) && (i == 0 ==> r == [])
        invariant forall n :: n in done <==> n in LiveNames(live[..i]) && MultiRemote(At(n))
        invariant forall pr, e :: Passed(r, pr, e) <==> KnownToAny(Snapshot(), done, pr, e)
      {
        var n := live[i].name;
        assert live[..i+1] == live[..i] + [live[i]];
        assert LiveNames(live[..i+1]) == LiveNames(live[..i]) + {n};
        if i > 0 && live[i-1].name == n {
          assert live[i-1] in live[..i];
          continue;
        }
        if !MultiRemote(At(n)) {
          continue;
        }
        var passes := EndpointPasses(n);
        PassedConcat(r, passes);
        r := r + passes;
        done := done + {n};
      }
      assert live[..|live|] == live;
    }

    /** Tunnels held or pending that are not live keep their servers passed. */
    method PassHeld(up: set<Name>) returns (r: seq<Pass>, ghost done: set<Name>)
      ensures forall n :: n in done <==> IsHeld(At(n)) && n !in up
      ensures r != [] <==> done != {}
      ensures forall t | t in r :: t.iface == ""
      ensures forall pr, e :: Passed(r, pr, e) <==> KnownToAny(Snapshot(), done, pr, e)
    {
      r, done := [], {};
      var todo := slots.Keys;
      while todo != {}
        invariant todo <= slots.Keys
        invariant forall n :: n in done <==> IsHeld(At(n)) && n !in up && n !in todo
        invariant r != [] <==> done != {}
        invariant forall t | t in r :: t.iface == ""
        invariant forall pr, e :: Passed(r, pr, e) <==> KnownToAny(Snapshot(), done, pr, e)
      {
        var n :| n in todo;
        todo := todo - {n};
        if !IsHeld(At(n)) || n in up {
          continue;
        }
        var passes := EndpointPasses(n);
        // nothing known yet: still keep the ruleset rather than flushing it
        passes := if passes == [] then [Pass("", "", [])] else passes;
        PassedConcat(r, passes);
        r := r + passes;
        done := done + {n};
      }
    }

    method LookupServers() returns (r: seq<string>)
      ensures forall s :: s in r <==> WindowServer(Snapshot(), s)
    {
      r := [];
      var todo := slots.Keys;
      while todo != {}
        invariant todo <= slots.Keys
        invariant forall s :: s in r <==>
          exists n | n in slots && n !in todo :: slots[n].servers.Some? && s in slots[n].servers.value
      {
        var n :| n in todo;
        todo := todo - {n};
        var servers := if slots[n].servers.Some? then slots[n].servers.value else [];
        ghost var before := r;
        for i := 0 to |servers|
          invariant forall s :: s in r <==> s in before || s in servers[..i]
        {
          assert servers[..i+1] == servers[..i] + [servers[i]];
          if servers[i] !in r {
            r := r + [servers[i]];
          }
        }
        assert servers[..|servers|] == servers;
      }
      forall s ensures s in r <==> WindowServer(Snapshot(), s) {
        assert forall n :: At(n).servers.Some? ==> n in slots;
      }
    }

    method PruneCache(up: set<Name>)
      modifies this
      ensures killSwitch == old(killSwitch) && dnsProtection == old(dnsProtection)
      ensures forall n :: At(n) == PruneSlot(old(At(n)), n in up)
    {
      var todo := slots.Keys;
      while todo != {}
        invariant todo <= slots.Keys == old(slots).Keys
        invariant killSwitch == old(killSwitch) && dnsProtection == old(dnsProtection)
        invariant forall n :: At(n) == if n in todo then old(At(n)) else PruneSlot(old(At(n)), n in up)
      {
        hide PruneSlot;
        var n :| n in todo;
        todo := todo - {n};
        PruneOne(n, up);
      }
    }

    method PruneOne(n: Name, up: set<Name>)
      requires n in slots
      modifies this
      ensures slots.Keys == old(slots).Keys && Became(n, PruneSlot(old(At(n)), n in up))
    {
      var x := At(n);
      if n !in up && !IsHeld(x) && x.ovpnConfig.None? {
        slots := slots[n := x.(cached := None)];
      }
    }

    /** Recomputes the ruleset from the policy and the tunnels that are up. */
    method ApplyFirewall(live: seq<LiveTunnel>, dns: seq<string>) returns (rs: Ruleset)
      modifies this
      ensures Applied(old(Snapshot()), live, Snapshot())
      ensures Exact(old(Snapshot()), live, dns, rs)
    {
      ghost var p := Snapshot();
      var up := set t | t in live :: t.name;
      RecordLive(live);
      ghost var q := Snapshot();
      var multi, multiNames := PassMultiRemote(live);
      var heldPasses, heldNames := PassHeld(up);
      var tunnels := LivePasses(live) + multi + heldPasses;
      TunnelsExact(p, q, live, multi, multiNames, heldPasses, heldNames);
      var servers := LookupServers();
      var anyBlocked := HasBlocked();
      RulesAreExact(p, q, live, dns, tunnels, servers, anyBlocked);
      hide Exact, Recorded, WindowServer, AnyBlocked, PruneSlot, ExactTunnels, PassesAll;
      rs := Ruleset(killSwitch, tunnels, dnsProtection, dns, servers);
      if |tunnels| == 0 && !(killSwitch && anyBlocked) {
        rs := NO_RULES;
      }
      PruneCache(up);
      RecordedThenPruned(p, live, q, Snapshot());
    }

    /** `loaded` says whether pf took the new ruleset; if not, the policy goes back. */
    method SetKillSwitch(on: bool, live: seq<LiveTunnel>, dns: seq<string>, loaded: bool) returns (rs: Ruleset)
      modifies this
      ensures killSwitch == (if loaded then on else old(killSwitch)) && dnsProtection == old(dnsProtection)
      ensures forall n :: At(n) == SetKillSwitchSlot(old(At(n)), on, LiveAt(live, n), loaded)
      ensures Exact(Switched(old(Snapshot()), on), live, dns, rs)
      ensures on ==> forall n :: At(n).blocked == if n in LiveNames(live) then None else old(At(n)).blocked
      ensures !on ==> forall n :: At(n).blocked == if loaded then None else old(At(n)).blocked
    {
      var prev := killSwitch;
      var unblocked;
      rs, unblocked := SwitchAndApply(on, live, dns);
      if !loaded {
        killSwitch := prev;
        RestoreBlocks(unblocked);
      }
    }

    method SwitchAndApply(on: bool, live: seq<LiveTunnel>, dns: seq<string>)
      returns (rs: Ruleset, unblocked: map<Name, Option<Protocol>>)
      modifies this
      ensures killSwitch == on && dnsProtection == old(dnsProtection)
      ensures forall n :: At(n) == ApplySlot(SwitchSlot(old(At(n)), on), LiveAt(live, n))
      ensures forall n :: n in unblocked <==> !on && old(At(n)).blocked.Some?
      ensures forall n | n in unblocked :: unblocked[n] == old(At(n)).blocked
      ensures Exact(Switched(old(Snapshot()), on), live, dns, rs)
    {
      hide Exact, ApplySlot, SwitchSlot;
      killSwitch := on;
      unblocked := Unblock(on);
      ghost var switched := Snapshot();
      assert forall n :: SlotAt(switched, n) == At(n);
      rs := ApplyFirewall(live, dns);
      assert forall n :: At(n) == ApplySlot(SlotAt(switched, n), LiveAt(live, n));
    }

    /** Turning the kill switch off releases every blocked tunnel. */
    method Unblock(on: bool) returns (unblocked: map<Name, Option<Protocol>>)
      modifies this`slots
      ensures Snapshot() == Switched(old(Snapshot()), on).(killSwitch := killSwitch)
      ensures forall n :: At(n) == SwitchSlot(old(At(n)), on)
      ensures forall n :: n in unblocked <==> !on && old(At(n)).blocked.Some?
      ensures forall n | n in unblocked :: unblocked[n] == old(At(n)).blocked
    {
      unblocked := if on then map[] else map n | n in slots && slots[n].blocked.Some? :: slots[n].blocked;
      slots := map n | n in slots :: SwitchSlot(slots[n], on);
    }

    function Restored(x: Slot, unblocked: map<Name, Option<Protocol>>, n: Name): Slot {
      if n in unblocked then x.(blocked := unblocked[n]) else x
    }

    method RestoreBlocks(unblocked: map<Name, Option<Protocol>>)
      modifies this`slots
      ensures forall n :: At(n) == Restored(old(At(n)), unblocked, n)
    {
      var todo := unblocked.Keys;
      while todo != {}
        invariant todo <= unblocked.Keys
        invariant forall n :: At(n) == if n in todo then old(At(n)) else Restored(old(At(n)), unblocked, n)
      {
        var n :| n in todo;
        todo := todo - {n};
        slots := slots[n := At(n).(blocked := unblocked[n])];
      }
    }

    method SetDNSProtection(on: bool, live: seq<LiveTunnel>, dns: seq<string>, loaded: bool) returns (rs: Ruleset)
      modifies this
      ensures killSwitch == old(killSwitch) && dnsProtection == (if loaded then on else old(dnsProtection))
      ensures forall n :: At(n) == ApplySlot(old(At(n)), LiveAt(live, n))
      ensures Exact(old(Snapshot()).(dnsProtection := on), live, dns, rs)
    {
      var prev := dnsProtection;
      dnsProtection := on;
      assert forall n :: At(n) == old(At(n));
      rs := ApplyFirewall(live, dns);
      if !loaded {
        dnsProtection := prev;
      }
    }
  }
}
