// Runs from the start of the helper to the states that the theorems about falling
// tunnels and spoiled connects begin with.
module Witnesses {
  import opened Common
  import opened Rules
  import opened KillSwitch
  import opened HelperRuns
  import opened Steps
  import opened HelperInvariants
  import opened FailClosed
  import opened Falling
  import opened ClosedExactly
  import opened ConnectAttempt
  import opened AttemptSpoiled

  // ---- one step from a reachable state to the next ----

  lemma UserLeads(s: Sys, n: Name, t: nat, e: ConnectEvent) returns (z: Sys)
    requires Reachable(s) && ConnectEnabled(ContextOf(s), TunnelAt(s, n), t, e)
    ensures Reachable(z) && Stepped(s, n, ConnectStep(ContextOf(s), TunnelAt(s, n), t, e).tunnel,
                ConnectStep(ContextOf(s), TunnelAt(s, n), t, e).mu, z)
  {
    UserGoes(s, n, t, e);
    hide *;
    ReachableNext(s, On(n, t, User(e)));
    z := Next(s, On(n, t, User(e)));
  }

  lemma CallLeads(s: Sys, n: Name, t: nat, e: CallEvent) returns (z: Sys)
    requires Reachable(s) && CallEnabled(ContextOf(s), TunnelAt(s, n), t, e)
    ensures Reachable(z) && Stepped(s, n, CallStep(ContextOf(s), TunnelAt(s, n), t, e).tunnel,
                CallStep(ContextOf(s), TunnelAt(s, n), t, e).mu, z)
  {
    CallGoes(s, n, t, e);
    hide *;
    ReachableNext(s, On(n, t, Call(e)));
    z := Next(s, On(n, t, Call(e)));
  }

  lemma StopLeads(s: Sys, n: Name, t: nat, e: DisconnectEvent) returns (z: Sys)
    requires Reachable(s) && DisconnectEnabled(ContextOf(s), TunnelAt(s, n), t, e)
    ensures Reachable(z) && Stepped(s, n, DisconnectStep(ContextOf(s), TunnelAt(s, n), t, e).tunnel,
                DisconnectStep(ContextOf(s), TunnelAt(s, n), t, e).mu, z)
  {
    StopGoes(s, n, t, e);
    hide *;
    ReachableNext(s, On(n, t, UserStop(e)));
    z := Next(s, On(n, t, UserStop(e)));
  }

  lemma RetryLeads(s: Sys, n: Name, t: nat, e: RetryEvent) returns (z: Sys)
    requires Reachable(s) && RetryEnabled(ContextOf(s), TunnelAt(s, n), t, e)
    ensures Reachable(z) && Stepped(s, n, RetryStep(ContextOf(s), TunnelAt(s, n), t, e).tunnel,
                RetryStep(ContextOf(s), TunnelAt(s, n), t, e).mu, z)
  {
    RetryGoes(s, n, t, e);
    hide *;
    ReachableNext(s, On(n, t, Retry(e)));
    z := Next(s, On(n, t, Retry(e)));
  }

  lemma OvpnLeads(s: Sys, n: Name, e: OvpnEvent) returns (z: Sys)
    requires Reachable(s) && OvpnEnabled(TunnelAt(s, n), e)
    ensures Reachable(z) && Stepped(s, n, OvpnStep(TunnelAt(s, n), e), s.mu, z)
  {
    OvpnGoes(s, n, 0, e);
    hide *;
    ReachableNext(s, On(n, 0, Ovpn(e)));
    z := Next(s, On(n, 0, Ovpn(e)));
  }

  lemma TearLeads(s: Sys, n: Name, t: nat, e: TearEvent) returns (z: Sys)
    requires Reachable(s) && TearEnabled(ContextOf(s), TunnelAt(s, n), t, e)
    ensures Reachable(z) && Stepped(s, n, TearStep(ContextOf(s), TunnelAt(s, n), t, e), s.mu, z)
  {
    TearGoes(s, n, t, e);
    hide *;
    ReachableNext(s, On(n, t, Tear(e)));
    z := Next(s, On(n, t, Tear(e)));
  }

  // ---- an OpenVPN connect ----

  /** A reachable state under the kill switch in which tunnel n is x. */
  ghost predicate At(s: Sys, n: Name, x: Tunnel) { Reachable(s) && s.killSwitch && TunnelAt(s, n) == x }

  /** The other tunnels have stayed as they were. */
  ghost predicate OthersSame(s: Sys, z: Sys, n: Name) { forall m | m != n :: TunnelAt(z, m) == TunnelAt(s, m) }

  lemma NewThread(s: Sys, n: Name)
    requires Reachable(s)
    ensures s.nextId !in TunnelAt(s, n).threads
  {
    ReachableIsSound(s);
    hide Reachable;
    assert TidyAt(s, n) && LockFacts(s.mu, s.nextId, TunnelAt(s, n), s.nextId);
  }

  const CONFIG := Config([], [])

  const PROCESS := Entry(None, true, true, "192.0.2.1", "utun0", "udp", false, 0, None)

  /** What a connect finds: the name is free. */
  predicate Idle(x: Tunnel) { x.entry.None? && x.wg.None? }

  function Requested(x: Tunnel, auto: bool): Slot { CacheConfigSlot(x.slot, OpenVPN, CONFIG, auto) }

  function Request(x: Tunnel, auto: bool, stage: ConnectStage): Thread {
    Connector(OpenVPN, CONFIG, auto, x.slot.epoch, stage, x.slot.wgConfig, x.slot.auto)
  }

  function Arrived(x: Tunnel, auto: bool, stage: ConnectStage): Thread { Connector(OpenVPN, CONFIG, auto, x.slot.epoch, stage, None, None) }

  lemma Checks(s: Sys, n: Name, x: Tunnel, auto: bool, a: nat) returns (z: Sys)
    requires At(s, n, Put(x, a, Arrived(x, auto, Arriving))) && s.mu.None?
    ensures At(z, n, Put(x, a, Arrived(x, auto, Checked))) && z.mu == Some(a) && OthersSame(s, z, n)
  {
    hide Reachable;
    z := UserLeads(s, n, a, Acquire);
    assert TunnelAt(z, n).threads == x.threads[a := Arrived(x, auto, Checked)];
  }

  lemma Arrives(s: Sys, n: Name, auto: bool) returns (z: Sys, a: nat)
    requires At(s, n, TunnelAt(s, n)) && s.mu.None?
    ensures At(z, n, Put(TunnelAt(s, n), a, Arrived(TunnelAt(s, n), auto, Checked)))
    ensures z.mu == Some(a) && a !in TunnelAt(s, n).threads && OthersSame(s, z, n)
  {
    NewThread(s, n);
    hide Reachable;
    a := s.nextId;
    var s1 := UserLeads(s, n, a, Arrive(OpenVPN, CONFIG, auto));
    z := Checks(s1, n, TunnelAt(s, n), auto, a);
  }

  lemma Requests(s: Sys, n: Name, auto: bool) returns (z: Sys, a: nat)
    requires At(s, n, TunnelAt(s, n)) && s.mu.None? && Idle(TunnelAt(s, n))
    ensures At(z, n, Put(TunnelAt(s, n).(slot := Requested(TunnelAt(s, n), auto)), a, Request(TunnelAt(s, n), auto, ConfigCached)))
    ensures z.mu == Some(a) && a !in TunnelAt(s, n).threads && OthersSame(s, z, n)
  {
    hide Reachable;
    var s1, b := Arrives(s, n, auto);
    a := b;
    z := UserLeads(s1, n, a, CacheRequest);
    assert TunnelAt(z, n).threads == TunnelAt(s, n).threads[a := Request(TunnelAt(s, n), auto, ConfigCached)];
  }

  /** The process is launched, and its threads are those that were there before the connect. */
  lemma Launches(s: Sys, n: Name, x: Tunnel, auto: bool, a: nat) returns (z: Sys)
    requires At(s, n, Put(x.(slot := Requested(x, auto)), a, Request(x, auto, ConfigCached))) && Idle(x) && a !in x.threads
    ensures Reachable(z) && z.killSwitch && z.mu.None? && OthersSame(s, z, n)
    ensures TunnelAt(z, n) == x.(entry := Some(Reserved(a).(launcher := None, remote := "192.0.2.1")), slot := TunnelAt(z, n).slot)
    ensures SettleSlot(TunnelAt(z, n).slot).(blocked := None) == SettleSlot(Requested(x, auto)).(blocked := None) && TunnelAt(z, n).slot.blocked.None?
  {
    hide Reachable;
    var s1 := Lifted(s, n, x, auto, a);
    var s2 := CallLeads(s1, n, a, Begin(false));
    z := CallLeads(s2, n, a, Finish(true, "192.0.2.1", Pass("", "", [])));
    assert TunnelAt(z, n).threads == x.threads;
  }

  lemma Lifted(s: Sys, n: Name, x: Tunnel, auto: bool, a: nat) returns (z: Sys)
    requires At(s, n, Put(x.(slot := Requested(x, auto)), a, Request(x, auto, ConfigCached))) && Idle(x) && a !in x.threads
    ensures Reachable(z) && z.killSwitch && OthersSame(s, z, n) && a in TunnelAt(z, n).threads && TunnelAt(z, n).threads - {a} == x.threads
    ensures TunnelAt(z, n).threads[a].Connector? && TunnelAt(z, n).threads[a].connectAt.Ready? && TunnelAt(z, n).threads[a].proto == OpenVPN
    ensures TunnelAt(z, n) == x.(threads := TunnelAt(z, n).threads, slot := TunnelAt(z, n).slot)
    ensures SettleSlot(TunnelAt(z, n).slot).(blocked := None) == SettleSlot(Requested(x, auto)).(blocked := None) && TunnelAt(z, n).slot.blocked.None?
  {
    hide Reachable;
    z := UserLeads(s, n, a, Lift([]));
  }

  /** A tunnel that has been connected and is up. */
  function Connected(x: Tunnel, auto: bool): Tunnel {
    x.(entry := Some(PROCESS), slot := SettleSlot(Requested(x, auto)).(blocked := None))
  }

  lemma ComesUp(s: Sys, n: Name, a: nat) returns (z: Sys)
    requires Reachable(s) && s.killSwitch && TunnelAt(s, n).entry == Some(Reserved(a).(launcher := None, remote := "192.0.2.1"))
    ensures At(z, n, TunnelAt(s, n).(entry := Some(PROCESS), slot := SettleSlot(TunnelAt(s, n).slot))) && z.mu == s.mu && OthersSame(s, z, n)
  {
    hide Reachable;
    var s1 := OvpnLeads(s, n, InterfaceKnown("utun0"));
    var s2 := OvpnLeads(s1, n, MgmtConnected("192.0.2.1"));
    z := OvpnLeads(s2, n, ActiveCallback);
  }

  /** A connect that succeeds. */
  lemma Connects(s: Sys, n: Name, auto: bool) returns (z: Sys)
    requires At(s, n, TunnelAt(s, n)) && s.mu.None? && Idle(TunnelAt(s, n))
    ensures At(z, n, Connected(TunnelAt(s, n), auto)) && z.mu.None? && OthersSame(s, z, n)
  {
    hide Reachable;
    var s1, a := Requests(s, n, auto);
    var s2 := Launches(s1, n, TunnelAt(s, n), auto, a);
    z := ComesUp(s2, n, a);
  }

  // ---- a death ----

  lemma Dying(s: Sys, n: Name) returns (z: Sys, w: nat)
    requires At(s, n, TunnelAt(s, n)) && TunnelAt(s, n).entry == Some(PROCESS) && TunnelAt(s, n).slot.ovpnConfig.Some?
    ensures var x := TunnelAt(s, n);
      At(z, n, Put(x.(entry := Some(PROCESS.(leaving := Some(w))), slot := x.slot.(dying := true, pending := true)), w, Teardown(true, TearStage.Dying)))
    ensures z.mu == s.mu && OthersSame(s, z, n) && w !in TunnelAt(s, n).threads
  {
    NewThread(s, n);
    hide Reachable;
    w := s.nextId;
    var s1 := TearLeads(s, n, w, BeginTear);
    z := TearLeads(s1, n, w, OnDying);
    assert TunnelAt(z, n).threads == TunnelAt(s, n).threads[w := Teardown(true, TearStage.Dying)];
  }

  lemma DeathReported(s: Sys, n: Name, x: Tunnel, w: nat) returns (z: Sys)
    requires At(s, n, Put(x, w, Teardown(true, TearStage.Dying))) && x.slot.dying && w !in x.threads
    ensures At(z, n, Put(x.(entry := None, slot := x.slot.(dying := false)), w, Teardown(true, Undying))) && z.mu == s.mu && OthersSame(s, z, n)
  {
    hide Reachable;
    var s1 := TearLeads(s, n, w, Remove);
    var s2 := TearLeads(s1, n, w, Report);
    z := TearLeads(s2, n, w, OnDied);
    assert TunnelAt(z, n).threads == x.threads[w := Teardown(true, Undying)];
  }

  /** Death, as it is handed to the reconnect monitor. */
  lemma Dies(s: Sys, n: Name) returns (z: Sys, w: nat)
    requires At(s, n, TunnelAt(s, n)) && TunnelAt(s, n).entry == Some(PROCESS) &&
             TunnelAt(s, n).slot.ovpnConfig.Some? && !TunnelAt(s, n).slot.dying
    ensures z.mu == s.mu && OthersSame(s, z, n) && w !in TunnelAt(s, n).threads
    ensures var x := TunnelAt(s, n).(entry := None, slot := ForgetOrHoldSlot(TunnelAt(s, n).slot.(pending := true), true, OpenVPN));
      At(z, n, if Auto(x.slot) then Put(x, w, Retrier(Notified, false, 0)) else x)
  {
    hide Reachable;
    var s1, v := Dying(s, n);
    w := v;
    var x := TunnelAt(s, n).(entry := Some(PROCESS.(leaving := Some(w))), slot := TunnelAt(s, n).slot.(dying := true, pending := true));
    var s2 := DeathReported(s1, n, x, w);
    z := DeathHandled(s2, n, x.(entry := None, slot := x.slot.(dying := false)), w);
  }

  lemma DeathHandled(s: Sys, n: Name, x: Tunnel, w: nat) returns (z: Sys)
    requires At(s, n, Put(x, w, Teardown(true, Undying))) && w !in x.threads
    ensures z.mu == s.mu && OthersSame(s, z, n)
    ensures var y := x.(slot := ForgetOrHoldSlot(x.slot, true, OpenVPN)); At(z, n, if Auto(y.slot) then Put(y, w, Retrier(Notified, false, 0)) else y)
  {
    hide Reachable;
    var s1 := TearLeads(s, n, w, Forget);
    z := TearLeads(s1, n, w, NotifyDeath);
    assert Auto(x.slot) ==> TunnelAt(z, n).threads == x.threads[w := Retrier(Notified, false, 0)];
    assert !Auto(x.slot) ==> TunnelAt(z, n).threads == x.threads;
  }

  // ---- a disconnect ----

  function Stopped(x: Tunnel): Tunnel {
    x.(slot := DisconnectSlot(x.slot), entry := if x.entry.Some? then Some(x.entry.value.(toldToExit := true)) else None)
  }

  lemma Disconnects(s: Sys, n: Name) returns (z: Sys)
    requires At(s, n, TunnelAt(s, n)) && s.mu.None? && TunnelAt(s, n).retry.None? && TunnelAt(s, n).wg.None?
    ensures At(z, n, Stopped(TunnelAt(s, n))) && z.mu.None? && OthersSame(s, z, n)
  {
    NewThread(s, n);
    hide Reachable;
    var x, d := TunnelAt(s, n), s.nextId;
    var s1 := StopLeads(s, n, d, AcquireToStop);
    var s2 := Clears(s1, n, x, d);
    z := Finishes(s2, n, x.(slot := DisconnectSlot(x.slot)), d);
  }

  lemma Clears(s: Sys, n: Name, x: Tunnel, d: nat) returns (z: Sys)
    requires At(s, n, Put(x, d, Disconnector(Clearing)))
    ensures At(z, n, Put(x.(slot := DisconnectSlot(x.slot)), d, Disconnector(DisconnectStage.Stopping))) && z.mu == s.mu && OthersSame(s, z, n)
  {
    hide Reachable;
    z := StopLeads(s, n, d, Clear);
    assert TunnelAt(z, n).threads == x.threads[d := Disconnector(DisconnectStage.Stopping)];
  }

  lemma Finishes(s: Sys, n: Name, x: Tunnel, d: nat) returns (z: Sys)
    requires At(s, n, Put(x, d, Disconnector(DisconnectStage.Stopping))) && x.retry.None? && x.wg.None? && d !in x.threads
    ensures At(z, n, x.(entry := if x.entry.Some? then Some(x.entry.value.(toldToExit := true)) else None)) && z.mu.None? && OthersSame(s, z, n)
  {
    hide Reachable;
    var s1 := StopLeads(s, n, d, Stop);
    z := StopLeads(s1, n, d, Done);
    assert TunnelAt(z, n).threads == x.threads;
  }

  // ---- the witnesses ----

  /** The kill switch goes on while nothing is up. */
  lemma SwitchedOn(maxAttempts: nat) returns (z: Sys)
    ensures Reachable(z) && z.killSwitch && z.mu.None? && z.tunnels == map[]
  {
    var s, e := Init(maxAttempts), OnPolicy(SetKillSwitch(true, [], true));
    assert ReachedBy(s, maxAttempts, []);
    assert Enabled(s, e);
    z := Next(s, e);
    hide Enabled, Next;
    ReachableNext(s, e);
  }

  /** An auto-reconnect tunnel that is up, with nothing else going on: it falls. */
  lemma SettledExists(maxAttempts: nat, n: Name) returns (s: Sys)
    ensures Reachable(s) && s.killSwitch && s.mu.None? && Settled(TunnelAt(s, n)) && Auto(TunnelAt(s, n).slot) && Falls(s, n)
  {
    var s0 := SwitchedOn(maxAttempts);
    assert TunnelAt(s0, n) == FRESH_TUNNEL;
    hide Reachable, Falls;
    s := Connects(s0, n, true);
    SettledFalls(s, n);
  }

  /** A tunnel whose death has been handed to the reconnect monitor, disconnected by the user. */
  lemma SequenceIsLeft(maxAttempts: nat, n: Name) returns (s: Sys, u: nat)
    ensures At(s, n, FRESH_TUNNEL.(slot := TunnelAt(s, n).slot, threads := map[u := Retrier(Notified, false, 0)])) && s.mu.None?
    ensures TunnelAt(s, n).slot.wgConfig.None?
  {
    var s0 := SwitchedOn(maxAttempts);
    assert TunnelAt(s0, n) == FRESH_TUNNEL;
    hide Reachable;
    var s1 := Connects(s0, n, true);
    var s2, w := Dies(s1, n);
    u := w;
    s := Disconnects(s2, n);
    assert TunnelAt(s, n).threads == map[u := Retrier(Notified, false, 0)];
  }

  /** A tunnel without auto-reconnect that is up, beside a sequence of its last connect: it falls too. */
  lemma LeftOverExists(maxAttempts: nat, n: Name) returns (s: Sys, u: nat)
    ensures Reachable(s) && s.killSwitch && s.mu.None? && Settled(TunnelAt(s, n)) && !Auto(TunnelAt(s, n).slot)
    ensures TunnelAt(s, n).threads == map[u := Retrier(Registered(None), false, 0)] && Falls(s, n)
  {
    var s1, w := SequenceIsLeft(maxAttempts, n);
    u := w;
    hide Reachable, Falls;
    var s2 := Connects(s1, n, false);
    s := RetryLeads(s2, n, u, Register);
    assert TunnelAt(s, n).threads == map[u := Retrier(Registered(None), false, 0)];
    LeftOverSequenceFalls(s, n, u);
  }

  /** A tunnel without auto-reconnect that is up and that nothing endangers: it does not. */
  lemma ClosedExists(maxAttempts: nat, n: Name) returns (s: Sys)
    ensures Reachable(s) && s.killSwitch && s.mu.None? && Settled(TunnelAt(s, n)) && !Auto(TunnelAt(s, n).slot) && !Falls(s, n)
  {
    var s0 := SwitchedOn(maxAttempts);
    assert TunnelAt(s0, n) == FRESH_TUNNEL;
    hide Reachable, Falls;
    s := Connects(s0, n, false);
    FallsExactly(s, n);
  }

  /** Tunnel m is blocked, and n has never been connected. */
  lemma AnotherIsBlocked(maxAttempts: nat, n: Name, m: Name) returns (s: Sys)
    requires n != m
    ensures At(s, n, FRESH_TUNNEL) && s.mu.None? && TunnelAt(s, m).slot.blocked.Some?
  {
    var s0 := SwitchedOn(maxAttempts);
    assert TunnelAt(s0, n) == FRESH_TUNNEL && TunnelAt(s0, m) == FRESH_TUNNEL;
    hide Reachable;
    var s1 := Connects(s0, m, false);
    var s2, _ := Dies(s1, m);
    s := s2;
  }

  /** A process that was told to exit has left the table. */
  lemma Leaves(s: Sys, n: Name) returns (z: Sys, u: nat)
    requires At(s, n, TunnelAt(s, n)) && TunnelAt(s, n).entry == Some(PROCESS.(toldToExit := true))
    ensures At(z, n, Put(TunnelAt(s, n).(entry := None), u, Teardown(false, Removed))) && z.mu == s.mu && OthersSame(s, z, n)
  {
    hide Reachable;
    u := s.nextId;
    var s1 := TearLeads(s, n, u, BeginTear);
    z := TearLeads(s1, n, u, Remove);
    assert TunnelAt(z, n).threads == TunnelAt(s, n).threads[u := Teardown(false, Removed)];
  }

  /**
   * A connect through another tunnel's block, before the old process of its own
   * tunnel has reported its final status: when it fails, the tunnel can end blocked.
   */
  lemma LateStatusExists(maxAttempts: nat, n: Name, m: Name) returns (s: Sys, a: nat)
    requires n != m
    ensures Reachable(s) && AboutToLift(TunnelAt(s, n), a) && TunnelAt(s, n).slot.blocked.None?
    ensures EndsBlocked(AttemptOf(s, n, a, false), AfterLift(s, n, a, []), n)
  {
    var s1 := AnotherIsBlocked(maxAttempts, n, m);
    hide Reachable, EndsBlocked;
    var s2 := Connects(s1, n, false);
    var s3 := Disconnects(s2, n);
    var s4, u := Leaves(s3, n);
    var s5, b := Requests(s4, n, false);
    s, a := s5, b;
    assert m in s.tunnels;
    ReachableIsSound(s);
    LateStatusBlocks(s, n, a, [], u);
  }
}
