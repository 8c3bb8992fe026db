// The exposing steps are exactly the ones that matter: after any of them some
// careful run leaves the tunnel with nothing to keep the ruleset closed.
module Exposure {
  import opened Common
  import opened Rules
  import opened KillSwitch
  import opened HelperRuns
  import opened Steps
  import opened HelperInvariants
  import opened HoldAccounting
  import opened FailClosed

  /** Some careful run from s ends with tunnel n unprotected. */
  ghost predicate Opens(s: Sys, n: Name) {
    exists run :: OpensBy(s, n, run)
  }

  ghost predicate OpensBy(s: Sys, n: Name, run: seq<Event>) {
    IsRun(s, run) && CarefulRun(s, run, n) && !Protected(TunnelAt(After(s, run), n))
  }

  lemma OpensLater(s: Sys, n: Name, e: Event)
    requires Enabled(s, e) && CarefulEvent(s, e, n) && Opens(Next(s, e), n)
    ensures Opens(s, n)
  {
    var run :| OpensBy(Next(s, e), n, run);
    var whole := [e] + run;
    assert whole[1..] == run;
    assert OpensBy(s, n, whole);
  }

  /** One more step of a careful run. */
  lemma Onward(s: Sys, n: Name, t: nat, step: Step) returns (z: Sys)
    requires Enabled(s, On(n, t, step)) && Careful(TunnelAt(s, n), step)
    ensures z == Next(s, On(n, t, step)) && (Opens(z, n) ==> Opens(s, n))
  {
    hide Enabled, Next, Careful, Opens;
    z := Next(s, On(n, t, step));
    if Opens(z, n) { OpensLater(s, n, On(n, t, step)); }
  }

  lemma CallOn(s: Sys, n: Name, t: nat, e: CallEvent) returns (z: Sys)
    requires CallEnabled(ContextOf(s), TunnelAt(s, n), t, e) && Careful(TunnelAt(s, n), Call(e))
    ensures Stepped(s, n, CallStep(ContextOf(s), TunnelAt(s, n), t, e).tunnel,
                CallStep(ContextOf(s), TunnelAt(s, n), t, e).mu, z) &&
      (Opens(z, n) ==> Opens(s, n))
  {
    CallGoes(s, n, t, e);
    hide *;
    z := Onward(s, n, t, Call(e));
  }

  lemma RetryOn(s: Sys, n: Name, t: nat, e: RetryEvent) returns (z: Sys)
    requires RetryEnabled(ContextOf(s), TunnelAt(s, n), t, e) && Careful(TunnelAt(s, n), Retry(e))
    ensures Stepped(s, n, RetryStep(ContextOf(s), TunnelAt(s, n), t, e).tunnel,
                RetryStep(ContextOf(s), TunnelAt(s, n), t, e).mu, z) &&
      (Opens(z, n) ==> Opens(s, n))
  {
    RetryGoes(s, n, t, e);
    hide *;
    z := Onward(s, n, t, Retry(e));
  }

  lemma OvpnOn(s: Sys, n: Name, t: nat, e: OvpnEvent) returns (z: Sys)
    requires OvpnEnabled(TunnelAt(s, n), e) && Careful(TunnelAt(s, n), Ovpn(e))
    ensures Stepped(s, n, OvpnStep(TunnelAt(s, n), e), s.mu, z) && (Opens(z, n) ==> Opens(s, n))
  {
    OvpnGoes(s, n, t, e);
    hide *;
    z := Onward(s, n, t, Ovpn(e));
  }

  lemma TearOn(s: Sys, n: Name, t: nat, e: TearEvent) returns (z: Sys)
    requires TearEnabled(ContextOf(s), TunnelAt(s, n), t, e) && Careful(TunnelAt(s, n), Tear(e))
    ensures Stepped(s, n, TearStep(ContextOf(s), TunnelAt(s, n), t, e), s.mu, z) && (Opens(z, n) ==> Opens(s, n))
  {
    TearGoes(s, n, t, e);
    hide *;
    z := Onward(s, n, t, Tear(e));
  }

  lemma OpensNow(s: Sys, n: Name)
    requires !Protected(TunnelAt(s, n))
    ensures Opens(s, n)
  {
    assert OpensBy(s, n, []);
  }

  // ---- a snapshot always exists ----

  ghost predicate SnapshotOf(s: Sys, names: set<Name>, live: seq<LiveTunnel>) {
    forall n :: if n in names then ListedRight(TunnelAt(s, n), LiveAt(live, n)) else LiveAt(live, n).None?
  }

  lemma {:induction false} SnapshotExists(s: Sys, names: set<Name>) returns (live: seq<LiveTunnel>)
    ensures SnapshotOf(s, names, live)
  {
    if names == {} {
      live := [];
    } else {
      var n :| n in names;
      var rest := SnapshotExists(s, names - {n});
      var x := TunnelAt(s, n);
      if Live(x) {
        live := rest + [LiveTunnel(n, if LiveWg(x) then x.wg.value.pass else EntryPass(x.entry.value))];
        assert live[..|live|-1] == rest;
      } else {
        live := rest;
      }
      forall m ensures if m in names then ListedRight(TunnelAt(s, m), LiveAt(live, m)) else LiveAt(live, m).None? {
        assert if m in names - {n} then ListedRight(TunnelAt(s, m), LiveAt(rest, m)) else LiveAt(rest, m).None?;
      }
    }
  }

  lemma ApplyEnabled(s: Sys) returns (e: Event)
    ensures e.OnPolicy? && e.change.ApplyRules? && Enabled(s, e)
  {
    var live := SnapshotExists(s, s.tunnels.Keys);
    e := OnPolicy(ApplyRules(live));
    forall n ensures ListedRight(TunnelAt(s, n), LiveAt(live, n)) {
      assert if n in s.tunnels then ListedRight(TunnelAt(s, n), LiveAt(live, n)) else LiveAt(live, n).None?;
    }
  }

  // ---- how it opens, last step first ----

  /** The holds are gone, or belong to sequences that leave no block when they end. */
  predicate Drainable(x: Tunnel) { if Auto(x.slot) then x.slot.held == 0 else x.slot.held <= |Holders(x)| }

  /** Nothing protects the tunnel but holds. */
  predicate Down(x: Tunnel) {
    x.entry.None? && x.wg.None? && !x.slot.pending && x.slot.blocked.None? && Drainable(x)
  }

  lemma HoldersKept(x: Tunnel, y: Tunnel)
    requires forall u :: HoldsAt(x, u) <==> HoldsAt(y, u)
    ensures Holders(x) == Holders(y)
  {
    assert forall u :: u in Holders(x) <==> HoldsAt(x, u);
    assert forall u :: u in Holders(y) <==> HoldsAt(y, u);
  }

  lemma EndingOpens(s: Sys, n: Name, u: nat)
    requires var x := TunnelAt(s, n); Down(x) && x.slot.held > 0 && HoldsAt(x, u) && x.threads[u].retryAt.Ending?
    ensures Opens(s, n)
    decreases TunnelAt(s, n).slot.held, 0
  {
    hide Opens;
    var z := RetryOn(s, n, u, Release);
    assert Holders(TunnelAt(z, n)) == Holders(TunnelAt(s, n)) - {u};
    DownOpens(z, n);
  }

  lemma LoopingOpens(s: Sys, n: Name, u: nat)
    requires var x := TunnelAt(s, n);
      Down(x) && x.slot.held > 0 && HoldsAt(x, u) && (x.threads[u].retryAt.Ending? || Looping(x.threads[u].retryAt))
    ensures Opens(s, n)
    decreases TunnelAt(s, n).slot.held, 1
  {
    hide Opens;
    var x := TunnelAt(s, n);
    if x.threads[u].retryAt.Ending? {
      EndingOpens(s, n, u);
    } else {
      var z := RetryOn(s, n, u, Panic);
      HoldersKept(x, TunnelAt(z, n));
      EndingOpens(z, n, u);
    }
  }

  lemma ReplacingOpens(s: Sys, n: Name, u: nat)
    requires var x := TunnelAt(s, n); Down(x) && x.slot.held > 0 && HoldsAt(x, u) && x.threads[u].retryAt.Replacing?
    ensures Opens(s, n)
    decreases TunnelAt(s, n).slot.held, 2
  {
    hide Opens;
    var z := RetryOn(s, n, u, Replace);
    HoldersKept(TunnelAt(s, n), TunnelAt(z, n));
    LoopingOpens(z, n, u);
  }

  lemma {:induction false} DownOpens(s: Sys, n: Name)
    requires Down(TunnelAt(s, n))
    ensures Opens(s, n)
    decreases TunnelAt(s, n).slot.held, 3
  {
    hide Opens;
    var x := TunnelAt(s, n);
    if x.slot.held == 0 {
      OpensNow(s, n);
    } else {
      assert Holders(x) != {};
      var u :| u in Holders(x);
      if x.threads[u].retryAt.Replacing? { ReplacingOpens(s, n, u); } else { LoopingOpens(s, n, u); }
    }
  }

  /** Nothing but the process itself, and holds, protect the tunnel. */
  predicate Bare(x: Tunnel) { x.entry.Some? && x.wg.None? && !x.slot.pending && Drainable(x) }

  predicate LeftBy(x: Tunnel, t: nat) { t in x.threads && x.threads[t] in {Teardown(true, Dying), Teardown(false, Decided)} }

  lemma RemoveOpens(s: Sys, n: Name, t: nat)
    requires var x := TunnelAt(s, n); Bare(x) && x.slot.blocked.None? && LeftBy(x, t)
    ensures Opens(s, n)
  {
    hide Opens;
    var z := TearOn(s, n, t, Remove);
    HoldersKept(TunnelAt(s, n), TunnelAt(z, n));
    DownOpens(z, n);
  }

  lemma LeftOpens(s: Sys, n: Name, t: nat)
    requires var x := TunnelAt(s, n); Bare(x) && LiveEntry(x.entry.value) && LeftBy(x, t)
    ensures Opens(s, n)
  {
    var e := ApplyEnabled(s);
    PolicyFrame(s, e.change, n);
    HoldersKept(TunnelAt(s, n), TunnelAt(Next(s, e), n));
    RemoveOpens(Next(s, e), n, t);
    OpensLater(s, n, e);
  }

  /** A death that is announced for a tunnel the helper no longer wants. */
  lemma UnwantedDeathOpens(s: Sys, n: Name, t: nat)
    requires var x := TunnelAt(s, n);
      Bare(x) && LiveEntry(x.entry.value) && x.slot.ovpnConfig.None? && t in x.threads && x.threads[t] == Teardown(true, Decided)
    ensures Opens(s, n)
  {
    hide Opens;
    var z := TearOn(s, n, t, OnDying);
    HoldersKept(TunnelAt(s, n), TunnelAt(z, n));
    LeftOpens(z, n, t);
  }

  /** Its end will not be answered by a hold. */
  predicate Unheeded(x: Tunnel) { x.entry.Some? && (x.entry.value.toldToExit || x.slot.ovpnConfig.None?) }

  /** The next thread's id is new. */
  predicate NewId(s: Sys, n: Name) { s.nextId !in TunnelAt(s, n).threads }

  lemma ExitOpens(s: Sys, n: Name)
    requires NewId(s, n)
    requires var x := TunnelAt(s, n);
      Bare(x) && Unheeded(x) && InActiveRemotes(x.entry.value) && x.entry.value.launcher.None? && x.entry.value.leaving.None? &&
      x.entry.value.callbacks == 0
    ensures Opens(s, n)
  {
    hide Opens;
    var z := TearOn(s, n, s.nextId, BeginTear);
    HoldersKept(TunnelAt(s, n), TunnelAt(z, n));
    if TunnelAt(s, n).entry.value.toldToExit {
      LeftOpens(z, n, s.nextId);
    } else {
      UnwantedDeathOpens(z, n, s.nextId);
    }
  }

  /** Ids stay new while the management channel talks. */
  ghost predicate NewIds(s: Sys, n: Name) { forall u | u in TunnelAt(s, n).threads :: u < s.nextId }

  /** Once its callbacks have run, the pending hold is gone. */
  lemma {:induction false} DrainOpens(s: Sys, n: Name)
    requires NewIds(s, n)
    requires var x := TunnelAt(s, n);
      x.wg.None? && Drainable(x) && Unheeded(x) && InActiveRemotes(x.entry.value) &&
      x.entry.value.launcher.None? && x.entry.value.leaving.None? && (x.slot.pending ==> x.entry.value.callbacks > 0)
    ensures Opens(s, n)
    decreases TunnelAt(s, n).entry.value.callbacks
  {
    hide Opens;
    if TunnelAt(s, n).entry.value.callbacks == 0 {
      ExitOpens(s, n);
    } else {
      var z := OvpnOn(s, n, 0, ActiveCallback);
      HoldersKept(TunnelAt(s, n), TunnelAt(z, n));
      DrainOpens(z, n);
    }
  }

  /** A process told to exit is about to connect. */
  predicate StillConnects(x: Tunnel) {
    x.wg.None? && Drainable(x) && x.entry.Some? && x.entry.value.toldToExit && x.entry.value.launcher.None? && x.entry.value.leaving.None?
  }

  lemma ServerOpens(s: Sys, n: Name)
    requires NewIds(s, n) && StillConnects(TunnelAt(s, n)) && TunnelAt(s, n).entry.value.iface != "" &&
             !TunnelAt(s, n).entry.value.connected
    ensures Opens(s, n)
  {
    hide Opens, Drainable;
    var z := OvpnOn(s, n, 0, MgmtConnected("192.0.2.1"));
    DrainableKept(TunnelAt(s, n), TunnelAt(z, n));
    DrainOpens(z, n);
  }

  lemma InterfaceOpens(s: Sys, n: Name)
    requires NewIds(s, n) && StillConnects(TunnelAt(s, n)) && !TunnelAt(s, n).entry.value.connected
    ensures Opens(s, n)
  {
    hide Opens, Drainable;
    var z := OvpnOn(s, n, 0, InterfaceKnown("utun0"));
    DrainableKept(TunnelAt(s, n), TunnelAt(z, n));
    ServerOpens(z, n);
  }

  /** It connects all the same. */
  lemma ConnectOpens(s: Sys, n: Name)
    requires NewIds(s, n) && StillConnects(TunnelAt(s, n))
    ensures Opens(s, n)
  {
    hide Opens, Drainable;
    var z := OvpnOn(s, n, 0, MgmtOther(Reconnecting));
    DrainableKept(TunnelAt(s, n), TunnelAt(z, n));
    InterfaceOpens(z, n);
  }

  lemma DrainableKept(x: Tunnel, y: Tunnel)
    requires y.threads == x.threads && y.slot == x.slot && Drainable(x)
    ensures Drainable(y)
  {
    HoldersKept(x, y);
  }

  lemma LaunchOpens(s: Sys, n: Name)
    requires NewIds(s, n) && Auto(TunnelAt(s, n).slot)
    requires var x := TunnelAt(s, n);
      x.wg.None? && x.slot.held == 0 && ComesUp(x) && x.entry.value.toldToExit && x.entry.value.leaving.None?
    ensures Opens(s, n)
  {
    var launcher := TunnelAt(s, n).entry.value.launcher;
    if launcher.None? {
      ConnectOpens(s, n);
    } else {
      hide Opens;
      var z := CallOn(s, n, launcher.value, Finish(true, "", Pass("", "", [])));
      ConnectOpens(z, n);
    }
  }

  // ---- the exposing steps ----

  /** What the lemmas below start from: a step that gives the protection of a safe tunnel away. */
  ghost predicate ExposingStep(s: Sys, n: Name, t: nat, step: Step) {
    && Sound(s) && s.killSwitch && Safe(TunnelAt(s, n)) && TunnelAt(s, n).slot.held <= |Holders(TunnelAt(s, n))|
    && Enabled(s, On(n, t, step)) && Exposes(TunnelAt(s, n), step)
  }

  lemma NewIdsAfter(s: Sys, n: Name, t: nat, step: Step)
    requires Sound(s) && Enabled(s, On(n, t, step))
    ensures NewIds(s, n) && NewIds(Next(s, On(n, t, step)), n)
  {
    var x, y := TunnelAt(s, n), TunnelAt(Next(s, On(n, t, step)), n);
    assert TidyAt(s, n);
    forall u | u in y.threads ensures u < s.nextId + 1 {
      StepThreads(ContextOf(s), x, t, step, u);
      assert LockFacts(s.mu, s.nextId, x, u);
    }
    forall u | u in x.threads ensures u < s.nextId { assert LockFacts(s.mu, s.nextId, x, u); }
  }

  lemma HoldEndOpens(s: Sys, n: Name, t: nat, step: Step)
    requires ExposingStep(s, n, t, step) && step.Retry? && Auto(TunnelAt(s, n).slot)
    ensures Opens(Next(s, On(n, t, step)), n)
  {
    var x, z := TunnelAt(s, n), Next(s, On(n, t, step));
    NewIdsAfter(s, n, t, step);
    assert QuietAt(x, t) && TidyAt(s, n);
    if x.entry.value.leaving.None? {
      LaunchOpens(z, n);
    } else {
      var u := x.entry.value.leaving.value;
      assert EntryFacts(x, u);
      LeftOpens(z, n, u);
    }
  }

  /** A process up without auto-reconnect that a leftover sequence tells to exit. */
  lemma LeftoverTimeoutOpens(s: Sys, n: Name, t: nat)
    requires ExposingStep(s, n, t, Retry(Timeout)) && !Auto(TunnelAt(s, n).slot)
    ensures Opens(Next(s, On(n, t, Retry(Timeout))), n)
  {
    var x, z := TunnelAt(s, n), Next(s, On(n, t, Retry(Timeout)));
    NewIdsAfter(s, n, t, Retry(Timeout));
    assert TidyAt(s, n) && EntryFacts(x, t);
    HoldersKept(x, TunnelAt(z, n));
    ConnectOpens(z, n);
  }

  lemma HoldAdds(s: Sys, n: Name, t: nat)
    requires ExposingStep(s, n, t, Retry(Hold))
    ensures var x, y := TunnelAt(s, n), TunnelAt(Next(s, On(n, t, Retry(Hold))), n);
      y.slot == HoldSlot(x.slot) && y.entry == x.entry && y.wg == x.wg && |Holders(y)| == |Holders(x)| + 1 &&
      forall u | u != t && u in x.threads :: u in y.threads && y.threads[u] == x.threads[u]
  {
    var x := TunnelAt(s, n);
    RetryGoes(s, n, t, Hold);
    var y := TunnelAt(Next(s, On(n, t, Retry(Hold))), n);
    hide Next, Enabled, Safe, Sound, Holders;
    HoldersGrow(x, y, t);
  }

  lemma HoldersGrow(x: Tunnel, y: Tunnel, t: nat)
    requires t in y.threads && y.threads == x.threads[t := y.threads[t]] && HasHold(y.threads[t]) && !HoldsAt(x, t)
    ensures |Holders(y)| == |Holders(x)| + 1
  {
    hide HasHold;
    assert Holders(y) == Holders(x) + {t} && t !in Holders(x);
  }

  /** A leftover sequence that takes over the pending hold or the block. */
  lemma LeftoverHoldOpens(s: Sys, n: Name, t: nat)
    requires ExposingStep(s, n, t, Retry(Hold)) && !Auto(TunnelAt(s, n).slot)
    ensures Opens(Next(s, On(n, t, Retry(Hold))), n)
  {
    var x, z := TunnelAt(s, n), Next(s, On(n, t, Retry(Hold)));
    HoldAdds(s, n, t);
    if x.entry.None? {
      hide Next, Opens, Sound;
      DownOpens(z, n);
    } else {
      var u := x.entry.value.leaving.value;
      assert TidyAt(s, n) && EntryFacts(x, u);
      hide Next, Opens, Sound, Holders;
      LeftOpens(z, n, u);
    }
  }

  lemma LateForgetOpens(s: Sys, n: Name, t: nat)
    requires ExposingStep(s, n, t, Tear(Forget))
    ensures Opens(Next(s, On(n, t, Tear(Forget))), n)
  {
    var x, z := TunnelAt(s, n), Next(s, On(n, t, Tear(Forget)));
    NewIdsAfter(s, n, t, Tear(Forget));
    HoldersKept(x, TunnelAt(z, n));
    assert TidyAt(s, n);
    if x.entry.value.leaving.None? {
      assert EntryFacts(x, t);
      DrainOpens(z, n);
    } else {
      var u := x.entry.value.leaving.value;
      assert EntryFacts(x, u);
      if Announced(x) {
        UnwantedDeathOpens(z, n, u);
      } else {
        LeftOpens(z, n, u);
      }
    }
  }

  lemma LateEngineDeathOpens(s: Sys, n: Name, t: nat)
    requires ExposingStep(s, n, t, Wg(ForgetWg))
    ensures Opens(Next(s, On(n, t, Wg(ForgetWg))), n)
  {
    var x, z := TunnelAt(s, n), Next(s, On(n, t, Wg(ForgetWg)));
    HoldersKept(x, TunnelAt(z, n));
    var u := x.entry.value.leaving.value;
    assert TidyAt(s, n) && EntryFacts(x, u);
    LeftOpens(z, n, u);
  }

  lemma ExposedOpens(s: Sys, n: Name, t: nat, step: Step)
    requires ExposingStep(s, n, t, step)
    ensures Opens(Next(s, On(n, t, step)), n)
  {
    hide Opens, Safe, Sound, Enabled;
    match step
    case Tear(e) => LateForgetOpens(s, n, t);
    case Wg(e) => LateEngineDeathOpens(s, n, t);
    case Retry(e) =>
      if Auto(TunnelAt(s, n).slot) {
        HoldEndOpens(s, n, t, step);
      } else if e.Timeout? {
        LeftoverTimeoutOpens(s, n, t);
      } else {
        LeftoverHoldOpens(s, n, t);
      }
  }

  /**
   * Whatever the step of a safe tunnel, short of a user action: some careful
   * continuation leaves the tunnel unprotected if and only if the step exposes it.
   */
  lemma OpensExactlyIfExposed(s: Sys, n: Name, t: nat, step: Step)
    requires Reachable(s) && s.killSwitch && Safe(TunnelAt(s, n))
    requires Enabled(s, On(n, t, step)) && !Disturbs(step)
    ensures Opens(Next(s, On(n, t, step)), n) <==> Exposes(TunnelAt(s, n), step)
  {
    var z := Next(s, On(n, t, step));
    ReachableIsSound(s);
    if Exposes(TunnelAt(s, n), step) {
      EveryHoldHasASequence(s, n);
      ExposedOpens(s, n, t, step);
    } else {
      SafeStep(s, On(n, t, step), n);
      forall run ensures !OpensBy(z, n, run) {
        if IsRun(z, run) && CarefulRun(z, run, n) {
          RunSafe(z, run, n);
          SafeProtects(TunnelAt(After(z, run), n));
        }
      }
    }
  }
}
