// What a tunnel that is down but held can still reach: the servers it was last
// up with, those of its configuration, those that the last lookup found, and,
// while a lookup lasts, the resolvers (internal/helper/firewall.go, handlers.go).
module KnownServers {
  import opened Common
  import opened Rules
  import opened KillSwitch
  import opened HelperRuns
  import opened Steps
  import opened Frames
  import opened HelperInvariants
  import opened HoldAccounting
  import opened FailClosed

  // ---- what a slot remembers ----

  predicate HasAnswers(x: Slot, answers: seq<Literal>) {
    x.cached.Some? && forall l | l in answers :: l in x.cached.value.resolved
  }

  /** The servers of a transport that the tunnel was up with. */
  ghost predicate HasPass(x: Slot, pass: Pass) {
    x.cached.Some? && forall ep | ep in pass.endpoints :: Passed(x.cached.value.passes, pass.proto, ep)
  }

  /** The step ends a lookup for its tunnel with these answers. */
  predicate Answers(step: Step, answers: seq<Literal>) {
    step == User(Lift(answers)) || step == Retry(CloseRetryWindow(answers))
  }

  /** What is remembered is kept by a policy step: the tunnel is up, held or a wanted OpenVPN one. */
  predicate Cares(x: Tunnel) { Live(x) || IsHeld(x.slot) || x.slot.ovpnConfig.Some? }

  lemma LookupAnswers(c: Context, x: Tunnel, t: nat, step: Step, answers: seq<Literal>)
    requires StepEnabled(c, x, t, step) && Answers(step, answers) && answers != []
    ensures HasAnswers(TunnelStep(c, x, t, step).tunnel.slot, answers)
  {}

  // ---- steps that leave it alone ----

  /** The same servers are remembered, and those of new answers. */
  ghost predicate Remembers(x: Slot, y: Slot, news: bool) {
    x.cached.Some? ==> y.cached.Some? && y.cached.value.passes == x.cached.value.passes && (!news ==> y.cached.value.resolved == x.cached.value.resolved)
  }

  predicate IsNews(step: Step) {
    match step
    case User(e) => e.Lift? && e.resolved != []
    case Retry(e) => e.CloseRetryWindow? && e.answers != []
    case _ => false
  }

  lemma UserRemembers(c: Context, x: Tunnel, t: nat, e: ConnectEvent)
    requires ConnectEnabled(c, x, t, e)
    ensures Remembers(x.slot, ConnectStep(c, x, t, e).tunnel.slot, IsNews(User(e)))
  {}

  lemma StopRemembers(c: Context, x: Tunnel, t: nat, e: DisconnectEvent)
    requires DisconnectEnabled(c, x, t, e)
    ensures Remembers(x.slot, DisconnectStep(c, x, t, e).tunnel.slot, false)
  {}

  lemma RetryRemembers(c: Context, x: Tunnel, t: nat, e: RetryEvent)
    requires RetryEnabled(c, x, t, e)
    ensures Remembers(x.slot, RetryStep(c, x, t, e).tunnel.slot, IsNews(Retry(e)))
  {
    RetrySlotIs(c, x, t, e);
    hide RetryStep, RetryEnabled;
  }

  lemma TearRemembers(c: Context, x: Tunnel, t: nat, e: TearEvent)
    requires TearEnabled(c, x, t, e)
    ensures Remembers(x.slot, TearStep(c, x, t, e).slot, false)
  {}

  lemma StepRemembers(c: Context, x: Tunnel, t: nat, step: Step)
    requires StepEnabled(c, x, t, step)
    ensures Remembers(x.slot, TunnelStep(c, x, t, step).tunnel.slot, IsNews(step))
  {
    match step
    case User(e) => UserRemembers(c, x, t, e);
    case Call(e) => CallFrame(c, x, t, e, t + 1);
    case UserStop(e) => StopRemembers(c, x, t, e);
    case Retry(e) => RetryRemembers(c, x, t, e);
    case Ovpn(e) =>
    case Tear(e) => TearRemembers(c, x, t, e);
    case Wg(e) =>
  }

  /** A policy step records what is up and forgets what nobody cares about. */
  lemma PolicyRemembers(x: Slot, e: PolicyEvent, listed: Option<Pass>)
    ensures var y := PolicySlot(x, e, listed);
      && (listed.Some? ==> HasPass(y, listed.value))
      && (listed.Some? || IsHeld(x) || x.ovpnConfig.Some? ==> (x.cached.Some? ==> y.cached.Some? && y.cached.value.resolved == x.cached.value.resolved))
      && (listed.None? && (IsHeld(x) || x.ovpnConfig.Some?) ==> y.cached == x.cached)
  {
    if listed.Some? {
      assert Pass("", listed.value.proto, listed.value.endpoints) in [Pass("", listed.value.proto, listed.value.endpoints)];
    }
  }

  // ---- runs ----

  /** The event brings no new answers for n, and a policy step finds n up, held or a wanted OpenVPN tunnel. */
  ghost predicate Retains(s: Sys, e: Event, n: Name) {
    match e
    case OnPolicy(_) => Cares(TunnelAt(s, n))
    case On(m, t, step) => m == n ==> !IsNews(step)
  }

  ghost predicate RunRetains(s: Sys, run: seq<Event>, n: Name)
    requires IsRun(s, run)
    decreases |run|
  {
    run == [] || (Retains(s, run[0], n) && RunRetains(Next(s, run[0]), run[1..], n))
  }

  lemma StepRetains(s: Sys, e: Event, n: Name, answers: seq<Literal>)
    requires Enabled(s, e) && Retains(s, e, n) && HasAnswers(TunnelAt(s, n).slot, answers)
    ensures HasAnswers(TunnelAt(Next(s, e), n).slot, answers)
  {
    var x := TunnelAt(s, n);
    match e
    case OnPolicy(change) =>
      PolicyFrame(s, change, n);
      PolicyRemembers(x.slot, change, LiveAt(change.live, n));
      hide PolicySlot, PolicyStep, IsSnapshot;
    case On(m, t, step) =>
      if m == n {
        StepRemembers(ContextOf(s), x, t, step);
        hide TunnelStep, StepEnabled;
      }
  }

  lemma {:induction false} AnswersStay(s: Sys, run: seq<Event>, n: Name, answers: seq<Literal>)
    requires IsRun(s, run) && RunRetains(s, run, n) && HasAnswers(TunnelAt(s, n).slot, answers)
    ensures HasAnswers(TunnelAt(After(s, run), n).slot, answers)
    decreases |run|
  {
    if run != [] {
      hide HasAnswers, Retains, Next, Enabled;
      StepRetains(s, run[0], n, answers);
      AnswersStay(Next(s, run[0]), run[1..], n, answers);
    }
  }

  /** The tunnel is down, and held for a connect or a reconnect. */
  predicate HeldDown(x: Tunnel) { !Live(x) && IsHeld(x.slot) }

  /** A ruleset computed while the tunnel is held passes each server that is known for it. */
  lemma KnownIsPassed(s: Sys, n: Name, live: seq<LiveTunnel>, dnsProtection: bool, servers: seq<string>, rs: Ruleset, proto: string, ep: string)
    requires HeldDown(TunnelAt(s, n)) && Computes(s, live, dnsProtection, servers, rs)
    requires Known(TunnelAt(s, n).slot, proto, ep)
    ensures Passed(rs.tunnels, proto, ep)
  {
    var p := PolicyOf(s, dnsProtection);
    assert ListedRight(TunnelAt(s, n), LiveAt(live, n));
    assert SlotAt(p, n) == TunnelAt(s, n).slot && n !in LiveNames(live);
    assert ApplySlot(SlotAt(p, n), None) == SlotAt(p, n);
    hide Known, ApplySlot, IsHeld;
    assert PassesAll(p, live, n) by { assert IsHeld(SlotAt(p, n)); }
    assert KnownToSome(p, live, proto, ep);
    assert HoldsOne(p, live);
  }

  /** And pf lets the connect through to it. */
  lemma PassedMeansThrough(net: Net, rs: Ruleset, proto: string, ep: string, k: Packet)
    requires Passed(rs.tunnels, proto, ep) && HitsEndpoint(net, proto, ep, k) && !IsDNS(k)
    ensures Verdict(net, rs, k)
  {
    var t :| t in rs.tunnels && t.proto == proto && ep in t.endpoints;
    assert HitsPass(net, t, k);
  }

  /**
   * What a lookup has found is passed: from the connect's lift or the end of a
   * retry's lookup on, any ruleset computed while the tunnel is held and down lets
   * the connect out to each of the answers, until a later lookup finds others or
   * nobody cares for the tunnel any more.
   */
  lemma AnswersArePassed(s: Sys, n: Name, t: nat, step: Step, answers: seq<Literal>, run: seq<Event>,
                         live: seq<LiveTunnel>, dnsProtection: bool, servers: seq<string>, rs: Ruleset)
    requires Enabled(s, On(n, t, step)) && Answers(step, answers)
    requires var s1 := Next(s, On(n, t, step)); IsRun(s1, run) && RunRetains(s1, run, n)
    requires var z := After(Next(s, On(n, t, step)), run); HeldDown(TunnelAt(z, n)) && Computes(z, live, dnsProtection, servers, rs)
    ensures forall l | l in answers :: Passed(rs.tunnels, l.proto, l.ep)
    ensures forall l, net: Net, k | l in answers && HitsEndpoint(net, l.proto, l.ep, k) && !IsDNS(k) :: Verdict(net, rs, k)
  {
    if answers != [] {
      var s1 := Next(s, On(n, t, step));
      var z := After(s1, run);
      LookupAnswers(ContextOf(s), TunnelAt(s, n), t, step, answers);
      Goes(s, n, t, step);
      AnswersStay(s1, run, n, answers);
      forall l | l in answers ensures Passed(rs.tunnels, l.proto, l.ep) {
        assert Literal(l.proto, l.ep) == l;
        assert Known(TunnelAt(z, n).slot, l.proto, l.ep);
        KnownIsPassed(z, n, live, dnsProtection, servers, rs, l.proto, l.ep);
      }
      hide HasAnswers, TunnelStep, StepEnabled, Known, Computes, Passed, HitsEndpoint, Verdict;
      forall l, net: Net, k | l in answers && HitsEndpoint(net, l.proto, l.ep, k) && !IsDNS(k) ensures Verdict(net, rs, k) {
        PassedMeansThrough(net, rs, l.proto, l.ep, k);
      }
    }
  }

  // ---- the last servers, the configured ones and the resolvers ----

  /** A policy step of the run finds n down, and held or a wanted OpenVPN tunnel. */
  ghost predicate RunDown(s: Sys, run: seq<Event>, n: Name)
    requires IsRun(s, run)
    decreases |run|
  {
    run == [] ||
    ((run[0].OnPolicy? ==> !Live(TunnelAt(s, n)) && Cares(TunnelAt(s, n))) && RunDown(Next(s, run[0]), run[1..], n))
  }

  lemma StepKeepsPass(s: Sys, e: Event, n: Name, pass: Pass)
    requires Enabled(s, e) && HasPass(TunnelAt(s, n).slot, pass)
    requires e.OnPolicy? ==> !Live(TunnelAt(s, n)) && Cares(TunnelAt(s, n))
    ensures HasPass(TunnelAt(Next(s, e), n).slot, pass)
  {
    var x := TunnelAt(s, n);
    match e
    case OnPolicy(change) =>
      PolicyFrame(s, change, n);
      PolicyRemembers(x.slot, change, LiveAt(change.live, n));
      hide PolicySlot, PolicyStep, IsSnapshot, Passed;
    case On(m, t, step) =>
      if m == n {
        StepRemembers(ContextOf(s), x, t, step);
        hide TunnelStep, StepEnabled, Passed;
      }
  }

  lemma {:induction false} PassStays(s: Sys, run: seq<Event>, n: Name, pass: Pass)
    requires IsRun(s, run) && RunDown(s, run, n) && HasPass(TunnelAt(s, n).slot, pass)
    ensures HasPass(TunnelAt(After(s, run), n).slot, pass)
    decreases |run|
  {
    if run != [] {
      hide HasPass, Next, Enabled, Cares, Live;
      StepKeepsPass(s, run[0], n, pass);
      PassStays(Next(s, run[0]), run[1..], n, pass);
    }
  }

  /** The servers that the tunnel was last up with are passed while it is held, however long it is down. */
  lemma LastServersArePassed(s: Sys, n: Name, change: PolicyEvent, pass: Pass, run: seq<Event>,
                             live: seq<LiveTunnel>, dnsProtection: bool, servers: seq<string>, rs: Ruleset)
    requires Enabled(s, OnPolicy(change)) && LiveAt(change.live, n) == Some(pass)
    requires var s1 := Next(s, OnPolicy(change)); IsRun(s1, run) && RunDown(s1, run, n)
    requires var z := After(Next(s, OnPolicy(change)), run); HeldDown(TunnelAt(z, n)) && Computes(z, live, dnsProtection, servers, rs)
    ensures forall ep | ep in pass.endpoints :: Passed(rs.tunnels, pass.proto, ep)
  {
    var s1 := Next(s, OnPolicy(change));
    var z := After(s1, run);
    PolicyFrame(s, change, n);
    PolicyRemembers(TunnelAt(s, n).slot, change, Some(pass));
    PassStays(s1, run, n, pass);
    forall ep | ep in pass.endpoints ensures Passed(rs.tunnels, pass.proto, ep) {
      assert Known(TunnelAt(z, n).slot, pass.proto, ep);
      KnownIsPassed(z, n, live, dnsProtection, servers, rs, pass.proto, ep);
    }
  }

  /** The address literals of the tunnel's configuration are passed while it is held. */
  lemma ConfiguredArePassed(s: Sys, n: Name, cfg: Config, live: seq<LiveTunnel>, dnsProtection: bool, servers: seq<string>, rs: Ruleset)
    requires HeldDown(TunnelAt(s, n)) && Computes(s, live, dnsProtection, servers, rs)
    requires Some(cfg) == TunnelAt(s, n).slot.wgConfig || Some(cfg) == TunnelAt(s, n).slot.ovpnConfig
    ensures forall l | l in cfg.literals :: Passed(rs.tunnels, l.proto, l.ep)
  {
    forall l | l in cfg.literals ensures Passed(rs.tunnels, l.proto, l.ep) {
      assert Literal(l.proto, l.ep) == l;
      assert Known(TunnelAt(s, n).slot, l.proto, l.ep);
      KnownIsPassed(s, n, live, dnsProtection, servers, rs, l.proto, l.ep);
    }
  }

  /** An OpenVPN tunnel with more than one server may fail over to any of them while it is up. */
  lemma RemotesArePassed(s: Sys, n: Name, live: seq<LiveTunnel>, dnsProtection: bool, servers: seq<string>, rs: Ruleset)
    requires Live(TunnelAt(s, n)) && Computes(s, live, dnsProtection, servers, rs)
    requires var x := TunnelAt(s, n).slot; x.ovpnConfig.Some? && |x.ovpnConfig.value.literals| + |x.ovpnConfig.value.hosts| >= 2
    ensures var x := TunnelAt(s, n).slot;
      && (forall l | l in x.ovpnConfig.value.literals :: Passed(rs.tunnels, l.proto, l.ep))
      && (x.cached.Some? ==> forall l | l in x.cached.value.resolved :: Passed(rs.tunnels, l.proto, l.ep))
  {
    var x, p := TunnelAt(s, n).slot, PolicyOf(s, dnsProtection);
    assert ListedRight(TunnelAt(s, n), LiveAt(live, n));
    assert SlotAt(p, n) == x && n in LiveNames(live) && live != [];
    forall l | l in x.ovpnConfig.value.literals || (x.cached.Some? && l in x.cached.value.resolved)
      ensures Passed(rs.tunnels, l.proto, l.ep)
    {
      assert Literal(l.proto, l.ep) == l;
      assert Known(ApplySlot(SlotAt(p, n), LiveAt(live, n)), l.proto, l.ep);
      assert PassesAll(p, live, n);
      assert KnownToSome(p, live, l.proto, l.ep);
    }
  }

  /** The server is an address of the tunnel's configuration, or what its last lookup found. */
  predicate Configured(x: Slot, proto: string, ep: string) {
    || (x.wgConfig.Some? && Literal(proto, ep) in x.wgConfig.value.literals)
    || (x.ovpnConfig.Some? && Literal(proto, ep) in x.ovpnConfig.value.literals)
    || (x.cached.Some? && Literal(proto, ep) in x.cached.value.resolved)
  }

  /** The server is one that the tunnel was last up with. */
  predicate LastUsed(x: Slot, proto: string, ep: string) {
    x.cached.Some? && exists t | t in x.cached.value.passes :: t.proto == proto && ep in t.endpoints
  }

  /** More than one server is configured. */
  predicate HasSeveral(x: Slot) {
    x.ovpnConfig.Some? && |x.ovpnConfig.value.literals| + |x.ovpnConfig.value.hosts| >= 2
  }

  /** The servers that the tunnel itself is a reason to pass, beyond the one it is up with. */
  predicate PassedFor(x: Tunnel, proto: string, ep: string) {
    if Live(x) then HasSeveral(x.slot) && Configured(x.slot, proto, ep)
    else (x.slot.held > 0 || x.slot.pending) && (Configured(x.slot, proto, ep) || LastUsed(x.slot, proto, ep))
  }

  /** What a tunnel that is up or held is a reason to pass. */
  lemma PassedForOne(s: Sys, n: Name, live: seq<LiveTunnel>, p: Policy, proto: string, ep: string)
    requires IsSnapshot(s, live) && SlotAt(p, n) == TunnelAt(s, n).slot
    ensures PassedFor(TunnelAt(s, n), proto, ep) ==> PassesAll(p, live, n) && Known(ApplySlot(SlotAt(p, n), LiveAt(live, n)), proto, ep)
    ensures PassesAll(p, live, n) && Known(ApplySlot(SlotAt(p, n), LiveAt(live, n)), proto, ep) ==>
      || PassedFor(TunnelAt(s, n), proto, ep)
      || (LiveAt(live, n).Some? && LiveAt(live, n).value.proto == proto && ep in LiveAt(live, n).value.endpoints)
  {
    var x := TunnelAt(s, n);
    assert ListedRight(x, LiveAt(live, n));
    assert n in LiveNames(live) <==> Live(x);
    assert x.slot.cached.Some? ==> (Passed(x.slot.cached.value.passes, proto, ep) <==> LastUsed(x.slot, proto, ep));
    assert !Passed([], proto, ep);
  }

  /** The last entry of a name is an entry. */
  lemma {:induction false} ListedIsPassed(live: seq<LiveTunnel>, n: Name)
    ensures LiveAt(live, n).Some? ==> LiveAt(live, n).value in LivePasses(live)
  {
    if live != [] {
      ListedIsPassed(live[..|live|-1], n);
      assert LivePasses(live) == LivePasses(live[..|live|-1]) + [live[|live|-1].pass];
    }
  }

  /**
   * The servers passed are exactly those of the tunnels that are up, every
   * configured or found one of an OpenVPN tunnel that is up and has several, and of
   * a tunnel held down every configured, found or last used one.
   */
  lemma ServersExactly(s: Sys, live: seq<LiveTunnel>, dnsProtection: bool, servers: seq<string>, rs: Ruleset, proto: string, ep: string)
    requires Computes(s, live, dnsProtection, servers, rs)
    ensures Passed(rs.tunnels, proto, ep) <==>
      || (exists l | l in live :: l.pass.proto == proto && ep in l.pass.endpoints)
      || (exists n :: PassedFor(TunnelAt(s, n), proto, ep))
  {
    hide *;
    if Passed(rs.tunnels, proto, ep) {
      PassedHasReason(s, live, dnsProtection, servers, rs, proto, ep);
    }
    forall n | PassedFor(TunnelAt(s, n), proto, ep) ensures Passed(rs.tunnels, proto, ep) {
      ReasonPasses(s, n, live, dnsProtection, servers, rs, proto, ep);
    }
    forall l | l in live && l.pass.proto == proto && ep in l.pass.endpoints ensures Passed(rs.tunnels, proto, ep) {
      LivePassed(s, l, live, dnsProtection, servers, rs, proto, ep);
    }
  }

  lemma PassedHasReason(s: Sys, live: seq<LiveTunnel>, dnsProtection: bool, servers: seq<string>, rs: Ruleset, proto: string, ep: string)
    requires Computes(s, live, dnsProtection, servers, rs) && Passed(rs.tunnels, proto, ep)
    ensures (exists l | l in live :: l.pass.proto == proto && ep in l.pass.endpoints) || (exists n :: PassedFor(TunnelAt(s, n), proto, ep))
  {
    var p := PolicyOf(s, dnsProtection);
    assert rs != NO_RULES;
    if !Passed(LivePasses(live), proto, ep) {
      var n :| PassesAll(p, live, n) && Known(ApplySlot(SlotAt(p, n), LiveAt(live, n)), proto, ep);
      PassedForOne(s, n, live, p, proto, ep);
      ListedIsPassed(live, n);
      hide PassedFor, Known, ApplySlot, PassesAll;
    }
  }

  lemma ReasonPasses(s: Sys, n: Name, live: seq<LiveTunnel>, dnsProtection: bool, servers: seq<string>, rs: Ruleset, proto: string, ep: string)
    requires Computes(s, live, dnsProtection, servers, rs) && PassedFor(TunnelAt(s, n), proto, ep)
    ensures Passed(rs.tunnels, proto, ep)
  {
    var p := PolicyOf(s, dnsProtection);
    PassedForOne(s, n, live, p, proto, ep);
    assert ListedRight(TunnelAt(s, n), LiveAt(live, n)) && SlotAt(p, n) == TunnelAt(s, n).slot;
    assert n in LiveNames(live) ==> live != [];
    assert n !in LiveNames(live) ==> HoldsOne(p, live);
    hide Known, ApplySlot, PassedFor;
    assert KnownToSome(p, live, proto, ep);
  }

  lemma LivePassed(s: Sys, l: LiveTunnel, live: seq<LiveTunnel>, dnsProtection: bool, servers: seq<string>, rs: Ruleset, proto: string, ep: string)
    requires Computes(s, live, dnsProtection, servers, rs) && l in live && l.pass.proto == proto && ep in l.pass.endpoints
    ensures Passed(rs.tunnels, proto, ep)
  {
    assert l.pass in LivePasses(live) && Passed(LivePasses(live), proto, ep);
    hide KnownToSome, HoldsOne, LivePasses;
  }

  /** The step begins a lookup with these resolvers. */
  predicate Begins(step: Step, resolvers: seq<string>) {
    step == User(OpenWindow(resolvers)) || step == Retry(OpenRetryWindow(resolvers))
  }

  /** Nobody but a new lookup changes the resolvers of one that is still open. */
  ghost predicate SameLookup(x: Slot, y: Slot) { y.windows > 0 ==> x.windows > 0 && y.servers == x.servers }

  lemma StepKeepsLookup(c: Context, x: Tunnel, t: nat, step: Step)
    requires StepEnabled(c, x, t, step) && !OpensWindow(step)
    ensures SameLookup(x.slot, TunnelStep(c, x, t, step).tunnel.slot)
  {
    match step
    case User(e) => UserKeepsLookup(c, x, t, e);
    case Call(e) => CallFrame(c, x, t, e, t + 1);
    case UserStop(e) =>
    case Retry(e) => RetrySlotIs(c, x, t, e);
    case Ovpn(e) =>
    case Tear(e) => TearKeepsLookup(c, x, t, e);
    case Wg(e) =>
  }

  lemma UserKeepsLookup(c: Context, x: Tunnel, t: nat, e: ConnectEvent)
    requires ConnectEnabled(c, x, t, e) && !e.OpenWindow?
    ensures SameLookup(x.slot, ConnectStep(c, x, t, e).tunnel.slot)
  {}

  lemma TearKeepsLookup(c: Context, x: Tunnel, t: nat, e: TearEvent)
    requires TearEnabled(c, x, t, e)
    ensures SameLookup(x.slot, TearStep(c, x, t, e).slot)
  {}

  lemma PolicyKeepsLookup(x: Slot, e: PolicyEvent, listed: Option<Pass>)
    ensures SameLookup(x, PolicySlot(x, e, listed))
  {}

  lemma EventKeepsLookup(s: Sys, e: Event, n: Name)
    requires Enabled(s, e) && !IsOpen(e, n)
    ensures SameLookup(TunnelAt(s, n).slot, TunnelAt(Next(s, e), n).slot)
  {
    match e
    case OnPolicy(change) =>
      PolicyFrame(s, change, n);
      PolicyKeepsLookup(TunnelAt(s, n).slot, change, LiveAt(change.live, n));
      hide PolicySlot, PolicyStep, IsSnapshot;
    case On(m, t, step) =>
      if m == n {
        StepKeepsLookup(ContextOf(s), TunnelAt(s, n), t, step);
        hide TunnelStep, StepEnabled;
      }
  }

  lemma {:induction false} LookupStays(s: Sys, run: seq<Event>, n: Name)
    requires IsRun(s, run) && forall e | e in run :: !IsOpen(e, n)
    ensures SameLookup(TunnelAt(s, n).slot, TunnelAt(After(s, run), n).slot)
    decreases |run|
  {
    if run != [] {
      hide Next, Enabled, IsOpen;
      assert run[0] in run && forall e | e in run[1..] :: e in run;
      EventKeepsLookup(s, run[0], n);
      LookupStays(Next(s, run[0]), run[1..], n);
    }
  }

  /** While a lookup lasts, every ruleset that is not empty lets it out to each of its resolvers. */
  lemma ResolversAreReached(s: Sys, n: Name, t: nat, step: Step, resolvers: seq<string>, run: seq<Event>,
                            live: seq<LiveTunnel>, dnsProtection: bool, servers: seq<string>, rs: Ruleset)
    requires Enabled(s, On(n, t, step)) && Begins(step, resolvers)
    requires var s1 := Next(s, On(n, t, step)); IsRun(s1, run) && forall e | e in run :: !IsOpen(e, n)
    requires var z := After(Next(s, On(n, t, step)), run);
      TunnelAt(z, n).slot.windows > 0 && Computes(z, live, dnsProtection, servers, rs)
    ensures rs == NO_RULES || forall r | r in resolvers :: r in rs.lookupServers
    ensures rs == NO_RULES || forall r, net: Net, k | r in resolvers && IsDNS(k) && net.parseIP(r) == Some(k.dst) :: Verdict(net, rs, k)
  {
    var s1 := Next(s, On(n, t, step));
    var z := After(s1, run);
    var p := PolicyOf(z, dnsProtection);
    Goes(s, n, t, step);
    assert TunnelAt(s1, n).slot.servers == Some(resolvers);
    LookupStays(s1, run, n);
    assert SlotAt(p, n) == TunnelAt(z, n).slot;
    forall r | r in resolvers ensures WindowServer(p, r) { assert r in SlotAt(p, n).servers.value; }
  }

  /** A retry looks up, before it calls, exactly if a configuration of the tunnel has a hostname to look up. */
  lemma RetryLooksUp(c: Context, x: Tunnel, t: nat, resolvers: seq<string>)
    requires t in x.threads && x.threads[t].Retrier? && x.threads[t].retryAt.Attempting?
    ensures RetryEnabled(c, x, t, OpenRetryWindow(resolvers)) <==>
      || (x.slot.wgConfig.Some? && x.slot.wgConfig.value.hosts != [])
      || (x.slot.ovpnConfig.Some? && x.slot.ovpnConfig.value.hosts != [])
  {}
}
