// What a call in progress can rely on, in every reachable state: a retry sequence
// calls only what is wanted with auto-reconnect, and a pass through another
// tunnel's block ends with the callback of the process that made use of it.
module CallInvariants {
  import opened Common
  import opened Rules
  import opened KillSwitch
  import opened HelperRuns
  import opened Frames
  import opened HelperInvariants

  /** A retry sequence on its way into a manager's Connect calls what is cached, with auto-reconnect on. */
  predicate CallsWanted(x: Tunnel, u: nat) {
    u in x.threads ==>
      match x.threads[u]
      case Retrier(stage, _, _) =>
        (stage.Calling? || stage.Connecting?) ==>
          Auto(x.slot) && (if stage.proto.WireGuard? then x.slot.wgConfig.Some? else x.slot.ovpnConfig.Some?)
      case _ => true
  }

  /** The connect has lifted, or come up, and its pending hold is still its own to end. */
  predicate Passing(stage: ConnectStage) {
    match stage
    case Ready(lifted) => lifted
    case InConnect(lifted) => lifted
    case Failed(lifted) => lifted
    case Restoring => true
    case Settling => true
    case _ => false
  }

  /** A live process with no callback to come is not passing through a block, unless a connect of the other protocol is. */
  predicate PassEnds(mu: Option<nat>, x: Tunnel) {
    x.slot.through && x.entry.Some? && LiveEntry(x.entry.value) && x.entry.value.callbacks == 0 ==>
      mu.Some? && mu.value in x.threads && x.threads[mu.value].Connector? && Passing(x.threads[mu.value].connectAt)
  }

  lemma UserCalls(c: Context, x: Tunnel, t: nat, e: ConnectEvent, u: nat)
    requires ConnectEnabled(c, x, t, e) && LockFacts(c.mu, c.id, x, t) && LockFacts(c.mu, c.id, x, u) && CallsWanted(x, u)
    ensures CallsWanted(ConnectStep(c, x, t, e).tunnel, u)
  {}

  lemma UserPasses(c: Context, x: Tunnel, t: nat, e: ConnectEvent)
    requires ConnectEnabled(c, x, t, e) && LockFacts(c.mu, c.id, x, t) && EntryFacts(x, t)
    requires (c.mu.Some? ==> LockFacts(c.mu, c.id, x, c.mu.value)) && PassEnds(c.mu, x)
    ensures PassEnds(ConnectStep(c, x, t, e).mu, ConnectStep(c, x, t, e).tunnel)
  {}

  lemma CallCalls(c: Context, x: Tunnel, t: nat, e: CallEvent, u: nat)
    requires CallEnabled(c, x, t, e) && LockFacts(c.mu, c.id, x, t) && LockFacts(c.mu, c.id, x, u) && CallsWanted(x, u)
    ensures CallsWanted(CallStep(c, x, t, e).tunnel, u)
  {}

  /** A new entry is not live, and one that is there has been so before its launch ended. */
  lemma CallLive(c: Context, x: Tunnel, t: nat, e: CallEvent)
    requires CallEnabled(c, x, t, e) && EntryFacts(x, t)
    ensures var y := CallStep(c, x, t, e).tunnel;
      y.entry.Some? && LiveEntry(y.entry.value) ==> x.entry.Some? && y.entry == x.entry
  {}

  /** A connect that calls is passing as before, or has ended with its process launched. */
  lemma CallerPasses(c: Context, x: Tunnel, t: nat, e: CallEvent)
    requires CallEnabled(c, x, t, e) && LockFacts(c.mu, c.id, x, t) && EntryFacts(x, t)
    ensures var o := CallStep(c, x, t, e);
      && c.mu == Some(t)
      && (x.threads[t].Connector? && t in o.tunnel.threads ==>
            o.mu == c.mu && o.tunnel.threads[t].Connector? && (Passing(x.threads[t].connectAt) ==> Passing(o.tunnel.threads[t].connectAt)))
      && (t !in o.tunnel.threads ==> o.tunnel.entry.Some? && o.tunnel.entry != x.entry)
  {}

  lemma CallPasses(c: Context, x: Tunnel, t: nat, e: CallEvent)
    requires CallEnabled(c, x, t, e) && LockFacts(c.mu, c.id, x, t) && EntryFacts(x, t)
    requires (c.mu.Some? ==> LockFacts(c.mu, c.id, x, c.mu.value)) && PassEnds(c.mu, x)
    ensures PassEnds(CallStep(c, x, t, e).mu, CallStep(c, x, t, e).tunnel)
  {
    CallLive(c, x, t, e);
    CallerPasses(c, x, t, e);
    CallFrame(c, x, t, e, t + 1);
    hide CallEnabled, CallStep, EntryFacts, LockFacts, Passing, LiveEntry;
  }

  lemma StopCalls(c: Context, x: Tunnel, t: nat, e: DisconnectEvent, u: nat)
    requires DisconnectEnabled(c, x, t, e) && LockFacts(c.mu, c.id, x, t) && LockFacts(c.mu, c.id, x, u) && CallsWanted(x, u)
    ensures CallsWanted(DisconnectStep(c, x, t, e).tunnel, u)
  {}

  lemma StopPasses(c: Context, x: Tunnel, t: nat, e: DisconnectEvent)
    requires DisconnectEnabled(c, x, t, e) && LockFacts(c.mu, c.id, x, t) && EntryFacts(x, t)
    requires (c.mu.Some? ==> LockFacts(c.mu, c.id, x, c.mu.value)) && PassEnds(c.mu, x)
    ensures PassEnds(DisconnectStep(c, x, t, e).mu, DisconnectStep(c, x, t, e).tunnel)
  {}

  lemma RetryCalls(c: Context, x: Tunnel, t: nat, e: RetryEvent, u: nat)
    requires RetryEnabled(c, x, t, e) && LockFacts(c.mu, c.id, x, t) && LockFacts(c.mu, c.id, x, u) && CallsWanted(x, u)
    ensures CallsWanted(RetryStep(c, x, t, e).tunnel, u)
  {
    RetryRequest(c, x, t, e);
    RetryOwn(c, x, t, e);
    if u != t { RetryFrame(c, x, t, e, u); }
    hide RetryEnabled, RetryStep;
  }

  lemma RetryMu(c: Context, x: Tunnel, t: nat, e: RetryEvent)
    requires RetryEnabled(c, x, t, e) && LockFacts(c.mu, c.id, x, t)
    ensures RetryStep(c, x, t, e).mu == c.mu || c.mu.None? || c.mu == Some(t)
  {}

  lemma RetryPasses(c: Context, x: Tunnel, t: nat, e: RetryEvent)
    requires RetryEnabled(c, x, t, e) && LockFacts(c.mu, c.id, x, t) && EntryFacts(x, t)
    requires (c.mu.Some? ==> LockFacts(c.mu, c.id, x, c.mu.value)) && PassEnds(c.mu, x)
    ensures PassEnds(RetryStep(c, x, t, e).mu, RetryStep(c, x, t, e).tunnel)
  {
    RetryMu(c, x, t, e);
    RetrySlotIs(c, x, t, e);
    RetryManagers(c, x, t, e);
    RetryOwn(c, x, t, e);
    if c.mu.Some? && c.mu.value != t { RetryFrame(c, x, t, e, c.mu.value); }
    hide RetryEnabled, RetryStep, EntryFacts;
  }

  lemma OvpnCalls(c: Context, x: Tunnel, t: nat, e: OvpnEvent, u: nat)
    requires OvpnEnabled(x, e) && LockFacts(c.mu, c.id, x, t) && LockFacts(c.mu, c.id, x, u) && CallsWanted(x, u)
    ensures CallsWanted(OvpnStep(x, e), u)
  {}

  lemma OvpnPasses(c: Context, x: Tunnel, t: nat, e: OvpnEvent)
    requires OvpnEnabled(x, e) && LockFacts(c.mu, c.id, x, t) && EntryFacts(x, t)
    requires (c.mu.Some? ==> LockFacts(c.mu, c.id, x, c.mu.value)) && PassEnds(c.mu, x)
    ensures PassEnds(c.mu, OvpnStep(x, e))
  {}

  lemma TearCalls(c: Context, x: Tunnel, t: nat, e: TearEvent, u: nat)
    requires TearEnabled(c, x, t, e) && LockFacts(c.mu, c.id, x, t) && LockFacts(c.mu, c.id, x, u) && CallsWanted(x, u)
    ensures CallsWanted(TearStep(c, x, t, e), u)
  {}

  lemma TearPasses(c: Context, x: Tunnel, t: nat, e: TearEvent)
    requires TearEnabled(c, x, t, e) && LockFacts(c.mu, c.id, x, t) && EntryFacts(x, t)
    requires (c.mu.Some? ==> LockFacts(c.mu, c.id, x, c.mu.value)) && PassEnds(c.mu, x)
    ensures PassEnds(c.mu, TearStep(c, x, t, e))
  {}

  lemma WgCalls(c: Context, x: Tunnel, t: nat, e: WgEvent, u: nat)
    requires WgEnabled(c, x, t, e) && LockFacts(c.mu, c.id, x, t) && LockFacts(c.mu, c.id, x, u) && CallsWanted(x, u)
    ensures CallsWanted(WgStep(c, x, t, e), u)
  {}

  lemma WgPasses(c: Context, x: Tunnel, t: nat, e: WgEvent)
    requires WgEnabled(c, x, t, e) && LockFacts(c.mu, c.id, x, t) && EntryFacts(x, t)
    requires (c.mu.Some? ==> LockFacts(c.mu, c.id, x, c.mu.value)) && PassEnds(c.mu, x)
    ensures PassEnds(c.mu, WgStep(c, x, t, e))
  {}

  lemma StepCalls(c: Context, x: Tunnel, t: nat, step: Step, u: nat)
    requires StepEnabled(c, x, t, step)
    requires LockFacts(c.mu, c.id, x, t) && LockFacts(c.mu, c.id, x, u) && CallsWanted(x, u)
    ensures CallsWanted(TunnelStep(c, x, t, step).tunnel, u)
  {
    match step
    case User(e) => UserCalls(c, x, t, e, u);
    case Call(e) => CallCalls(c, x, t, e, u);
    case UserStop(e) => StopCalls(c, x, t, e, u);
    case Retry(e) => RetryCalls(c, x, t, e, u);
    case Ovpn(e) => OvpnCalls(c, x, t, e, u);
    case Tear(e) => TearCalls(c, x, t, e, u);
    case Wg(e) => WgCalls(c, x, t, e, u);
  }

  lemma StepPasses(c: Context, x: Tunnel, t: nat, step: Step)
    requires StepEnabled(c, x, t, step) && LockFacts(c.mu, c.id, x, t) && EntryFacts(x, t)
    requires (c.mu.Some? ==> LockFacts(c.mu, c.id, x, c.mu.value)) && PassEnds(c.mu, x)
    ensures var o := TunnelStep(c, x, t, step); PassEnds(o.mu, o.tunnel)
  {
    match step
    case User(e) => UserPasses(c, x, t, e);
    case Call(e) => CallPasses(c, x, t, e);
    case UserStop(e) => StopPasses(c, x, t, e);
    case Retry(e) => RetryPasses(c, x, t, e);
    case Ovpn(e) => OvpnPasses(c, x, t, e);
    case Tear(e) => TearPasses(c, x, t, e);
    case Wg(e) => WgPasses(c, x, t, e);
  }

  ghost predicate Wired(s: Sys, n: Name) { PassEnds(s.mu, TunnelAt(s, n)) && forall u :: CallsWanted(TunnelAt(s, n), u) }

  lemma PolicyLeavesCalls(x: Slot, e: PolicyEvent, listed: Option<Pass>)
    ensures var y := PolicySlot(x, e, listed);
      y.auto == x.auto && y.wgConfig == x.wgConfig && y.ovpnConfig == x.ovpnConfig && y.through == x.through
  {
    match e
    case ApplyRules(_) => ApplyLeavesRequest(x, listed);
    case SetKillSwitch(on, _, loaded) => SwitchLeavesRequest(x, on, listed, loaded);
  }

  lemma ApplyLeavesRequest(x: Slot, listed: Option<Pass>)
    ensures var y := ApplySlot(x, listed); y == x.(blocked := y.blocked, cached := y.cached)
  {}

  lemma SwitchLeavesRequest(x: Slot, on: bool, listed: Option<Pass>, loaded: bool)
    ensures var y := SetKillSwitchSlot(x, on, listed, loaded); y == x.(blocked := y.blocked, cached := y.cached)
  {
    ApplyLeavesRequest(SwitchSlot(x, on), listed);
    hide ApplySlot;
  }

  lemma WiredByPolicy(s: Sys, e: PolicyEvent, n: Name)
    requires Enabled(s, OnPolicy(e)) && Wired(s, n)
    ensures Wired(PolicyStep(s, e), n)
  {
    PolicyFrame(s, e, n);
    PolicyLeavesCalls(TunnelAt(s, n).slot, e, LiveAt(e.live, n));
    hide PolicySlot, IsSnapshot;
    forall u ensures CallsWanted(TunnelAt(PolicyStep(s, e), n), u) { assert CallsWanted(TunnelAt(s, n), u); }
  }

  lemma WiredStep(s: Sys, e: Event, n: Name)
    requires Sound(s) && Enabled(s, e) && Wired(s, n)
    ensures Wired(Next(s, e), n)
  {
    assert TidyAt(s, n);
    match e
    case OnPolicy(change) => WiredByPolicy(s, change, n);
    case On(m, t, step) =>
      var c, x := ContextOf(s), TunnelAt(s, n);
      if m == n {
        assert LockFacts(c.mu, c.id, x, t) && EntryFacts(x, t) && (c.mu.Some? ==> LockFacts(c.mu, c.id, x, c.mu.value));
        StepPasses(c, x, t, step);
        forall u ensures CallsWanted(TunnelAt(Next(s, e), n), u) {
          assert LockFacts(c.mu, c.id, x, u) && CallsWanted(x, u);
          StepCalls(c, x, t, step, u);
        }
      } else {
        WiredByOther(s, m, t, step, n);
      }
  }

  lemma WiredByOther(s: Sys, m: Name, t: nat, step: Step, n: Name)
    requires Sound(s) && Enabled(s, On(m, t, step)) && Wired(s, n) && m != n
    ensures Wired(Next(s, On(m, t, step)), n)
  {
    assert TidyAt(s, m);
    OtherTidy(s, m, t, step, n);
    assert LockFacts(s.mu, s.nextId, TunnelAt(s, m), t);
    StepMu(ContextOf(s), TunnelAt(s, m), t, step);
    forall u ensures CallsWanted(TunnelAt(Next(s, On(m, t, step)), n), u) { assert CallsWanted(TunnelAt(s, n), u); }
  }

  lemma {:induction false} RunWired(s: Sys, run: seq<Event>, n: Name)
    requires Sound(s) && IsRun(s, run) && Wired(s, n)
    ensures Wired(After(s, run), n)
    decreases |run|
  {
    if run != [] {
      WiredStep(s, run[0], n);
      SoundStep(s, run[0]);
      RunWired(Next(s, run[0]), run[1..], n);
    }
  }

  lemma ReachableWired(s: Sys, n: Name)
    requires Reachable(s)
    ensures Wired(s, n)
  {
    var maxAttempts, run :| ReachedBy(s, maxAttempts, run);
    InitSound(maxAttempts);
    RunWired(Init(maxAttempts), run, n);
  }
}
