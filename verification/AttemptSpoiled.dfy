// Whatever disturbs an attempt does so for real: from its lift there is a run in
// which it fails and the tunnel is left blocked, unblocked or held otherwise.
module AttemptSpoiled {
  import opened Common
  import opened Rules
  import opened KillSwitch
  import opened HelperRuns
  import opened Steps
  import opened Frames
  import opened HelperInvariants
  import opened HoldAccounting
  import opened ConnectAttempt

  ghost predicate SpoiledBy(b: Attempt, s: Sys, n: Name, run: seq<Event>) {
    && IsRun(s, run) && FailingRun(b.wakes, s, run, n) && Over(b, TunnelAt(After(s, run), n))
    && !Restored(b, TunnelAt(After(s, run), n).slot)
  }

  /** Some failing run from s ends the attempt without restoring the tunnel. */
  ghost predicate Spoiled(b: Attempt, s: Sys, n: Name) { exists run :: SpoiledBy(b, s, n, run) }

  lemma SpoiledNow(b: Attempt, s: Sys, n: Name)
    requires Over(b, TunnelAt(s, n)) && !Restored(b, TunnelAt(s, n).slot)
    ensures Spoiled(b, s, n)
  {
    assert SpoiledBy(b, s, n, []);
  }

  lemma SpoiledLater(b: Attempt, s: Sys, n: Name, t: nat, step: Step)
    requires Enabled(s, On(n, t, step)) && Fails(b.wakes, TunnelAt(s, n), t, step) && Spoiled(b, Next(s, On(n, t, step)), n)
    ensures Spoiled(b, s, n)
  {
    var e := On(n, t, step);
    hide Enabled, Next, Fails, Over, Restored;
    var run :| SpoiledBy(b, Next(s, e), n, run);
    var whole := [e] + run;
    assert whole[1..] == run;
    assert SpoiledBy(b, s, n, whole);
  }

  /** From s to z, tunnel n became y and the owner of connectMu mu. */
  ghost predicate Moves(s: Sys, n: Name, y: Tunnel, mu: Option<nat>, z: Sys) {
    TunnelAt(z, n) == y && z.mu == mu && z.killSwitch == s.killSwitch && z.maxAttempts == s.maxAttempts && z.nextId == s.nextId + 1
  }

  /** One more step of a spoiling run. */
  lemma Goes(b: Attempt, s: Sys, n: Name, t: nat, step: Step) returns (z: Sys)
    requires StepEnabled(ContextOf(s), TunnelAt(s, n), t, step) && Fails(b.wakes, TunnelAt(s, n), t, step)
    ensures z == Next(s, On(n, t, step)) && (Spoiled(b, z, n) ==> Spoiled(b, s, n))
  {
    Steps.Goes(s, n, t, step);
    hide StepEnabled, TunnelStep, Fails, Stepped, Next;
    z := Next(s, On(n, t, step));
    if Spoiled(b, z, n) { SpoiledLater(b, s, n, t, step); }
  }

  lemma MovesOn(s: Sys, n: Name, y: Tunnel, mu: Option<nat>, z: Sys)
    requires Stepped(s, n, y, mu, z)
    ensures Moves(s, n, y, mu, z)
  {}

  lemma UserOn(b: Attempt, s: Sys, n: Name, t: nat, e: ConnectEvent) returns (z: Sys)
    requires ConnectEnabled(ContextOf(s), TunnelAt(s, n), t, e) && Fails(b.wakes, TunnelAt(s, n), t, User(e))
    ensures Moves(s, n, ConnectStep(ContextOf(s), TunnelAt(s, n), t, e).tunnel,
                ConnectStep(ContextOf(s), TunnelAt(s, n), t, e).mu, z) && (Spoiled(b, z, n) ==> Spoiled(b, s, n))
  {
    UserGoes(s, n, t, e);
    hide *;
    z := Goes(b, s, n, t, User(e));
    MovesOn(s, n, ConnectStep(ContextOf(s), TunnelAt(s, n), t, e).tunnel, ConnectStep(ContextOf(s), TunnelAt(s, n), t, e).mu, z);
  }

  lemma CallOn(b: Attempt, s: Sys, n: Name, t: nat, e: CallEvent) returns (z: Sys)
    requires CallEnabled(ContextOf(s), TunnelAt(s, n), t, e) && Fails(b.wakes, TunnelAt(s, n), t, Call(e))
    ensures Moves(s, n, CallStep(ContextOf(s), TunnelAt(s, n), t, e).tunnel,
                CallStep(ContextOf(s), TunnelAt(s, n), t, e).mu, z) && (Spoiled(b, z, n) ==> Spoiled(b, s, n))
  {
    CallGoes(s, n, t, e);
    hide *;
    z := Goes(b, s, n, t, Call(e));
    MovesOn(s, n, CallStep(ContextOf(s), TunnelAt(s, n), t, e).tunnel, CallStep(ContextOf(s), TunnelAt(s, n), t, e).mu, z);
  }

  lemma RetryOn(b: Attempt, s: Sys, n: Name, t: nat, e: RetryEvent) returns (z: Sys)
    requires RetryEnabled(ContextOf(s), TunnelAt(s, n), t, e) && Fails(b.wakes, TunnelAt(s, n), t, Retry(e))
    ensures Moves(s, n, RetryStep(ContextOf(s), TunnelAt(s, n), t, e).tunnel,
                RetryStep(ContextOf(s), TunnelAt(s, n), t, e).mu, z) && (Spoiled(b, z, n) ==> Spoiled(b, s, n))
  {
    RetryGoes(s, n, t, e);
    hide *;
    z := Goes(b, s, n, t, Retry(e));
    MovesOn(s, n, RetryStep(ContextOf(s), TunnelAt(s, n), t, e).tunnel, RetryStep(ContextOf(s), TunnelAt(s, n), t, e).mu, z);
  }

  lemma TearOn(b: Attempt, s: Sys, n: Name, t: nat, e: TearEvent) returns (z: Sys)
    requires TearEnabled(ContextOf(s), TunnelAt(s, n), t, e) && Fails(b.wakes, TunnelAt(s, n), t, Tear(e))
    ensures Moves(s, n, TearStep(ContextOf(s), TunnelAt(s, n), t, e), s.mu, z) && (Spoiled(b, z, n) ==> Spoiled(b, s, n))
  {
    TearGoes(s, n, t, e);
    hide *;
    z := Goes(b, s, n, t, Tear(e));
    MovesOn(s, n, TearStep(ContextOf(s), TunnelAt(s, n), t, e), s.mu, z);
  }

  lemma WgOn(b: Attempt, s: Sys, n: Name, t: nat, e: WgEvent) returns (z: Sys)
    requires WgEnabled(ContextOf(s), TunnelAt(s, n), t, e) && Fails(b.wakes, TunnelAt(s, n), t, Wg(e))
    ensures Moves(s, n, WgStep(ContextOf(s), TunnelAt(s, n), t, e), s.mu, z) && (Spoiled(b, z, n) ==> Spoiled(b, s, n))
  {
    WgGoes(s, n, t, e);
    hide *;
    z := Goes(b, s, n, t, Wg(e));
    MovesOn(s, n, WgStep(ContextOf(s), TunnelAt(s, n), t, e), s.mu, z);
  }

  // ---- stations of a run ----

  /** The attempt's state, and that all threads of the tunnel are older than it. */
  ghost predicate Under(b: Attempt, s: Sys, n: Name) {
    && s.killSwitch == b.killSwitch && s.maxAttempts == b.maxAttempts && b.first <= s.nextId && b.a < b.first
    && forall u | u in TunnelAt(s, n).threads :: u < b.first
  }

  predicate IsDown(x: Tunnel) { x.entry.None? && x.wg.None? }

  /** The connect has lifted and not called the manager yet. */
  ghost predicate AtReady(b: Attempt, s: Sys, n: Name) {
    && Under(b, s, n) && IsDown(TunnelAt(s, n))
    && ConnectorAt(TunnelAt(s, n), b.a, Ready(b.lifted)) && TunnelAt(s, n).threads[b.a].proto == b.proto
  }

  /** The connect is over and nothing runs. */
  ghost predicate AtRest(b: Attempt, s: Sys, n: Name) {
    Under(b, s, n) && IsDown(TunnelAt(s, n)) && b.a !in TunnelAt(s, n).threads
  }

  lemma RestSpoils(b: Attempt, s: Sys, n: Name)
    requires AtRest(b, s, n) && !Restored(b, TunnelAt(s, n).slot)
    ensures Spoiled(b, s, n)
  {
    SpoiledNow(b, s, n);
  }

  /** What a connect that the manager refuses leaves of the slot. */
  function RolledBack(b: Attempt, x: Tunnel): Slot
    requires b.a in x.threads && x.threads[b.a].Connector?
  {
    var th := x.threads[b.a];
    var y := UncacheConfigSlot(x.slot, th.proto, th.prevCfg, th.prevAuto);
    if b.lifted then RestoreBlockSlot(y, b.killSwitch, th.proto) else y
  }

  /** The connect has failed and not rolled back yet. */
  ghost predicate AtFailed(b: Attempt, s: Sys, n: Name) {
    && Under(b, s, n) && IsDown(TunnelAt(s, n))
    && ConnectorAt(TunnelAt(s, n), b.a, Failed(b.lifted)) && TunnelAt(s, n).threads[b.a].proto == b.proto
  }

  lemma Refuses(b: Attempt, s: Sys, n: Name) returns (z: Sys)
    requires AtReady(b, s, n)
    ensures AtFailed(b, z, n) && TunnelAt(z, n) == MoveConnector(TunnelAt(s, n), b.a, Failed(b.lifted))
    ensures Spoiled(b, z, n) ==> Spoiled(b, s, n)
  {
    hide Spoiled;
    z := CallOn(b, s, n, b.a, Begin(true));
  }

  /** It rolls back what it lifted. */
  lemma RestoresBlock(b: Attempt, s: Sys, n: Name, x: Tunnel) returns (z: Sys)
    requires Under(b, s, n) && IsDown(x) && ConnectorAt(x, b.a, Restoring) && x.threads[b.a].proto == b.proto && TunnelAt(s, n) == x
    ensures AtRest(b, z, n) && z.mu.None? && TunnelAt(z, n) == End(x, b.a).(slot := RestoreBlockSlot(x.slot, b.killSwitch, b.proto))
    ensures Spoiled(b, z, n) ==> Spoiled(b, s, n)
  {
    hide Spoiled;
    z := UserOn(b, s, n, b.a, RestoreBlock);
  }

  lemma RollsBackFrom(b: Attempt, s: Sys, n: Name) returns (z: Sys)
    requires AtFailed(b, s, n)
    ensures AtRest(b, z, n) && z.mu.None? && TunnelAt(z, n) == End(TunnelAt(s, n), b.a).(slot := RolledBack(b, TunnelAt(s, n)))
    ensures Spoiled(b, z, n) ==> Spoiled(b, s, n)
  {
    hide Spoiled;
    z := UserOn(b, s, n, b.a, Uncache);
    if b.lifted {
      var y := TunnelAt(z, n);
      z := RestoresBlock(b, z, n, y);
      assert End(y, b.a).threads == End(TunnelAt(s, n), b.a).threads;
    }
  }

  /** The manager refuses at once. */
  lemma Refused(b: Attempt, s: Sys, n: Name) returns (z: Sys)
    requires AtReady(b, s, n)
    ensures AtRest(b, z, n) && z.mu.None? && TunnelAt(z, n) == End(TunnelAt(s, n), b.a).(slot := RolledBack(b, TunnelAt(s, n)))
    ensures Spoiled(b, z, n) ==> Spoiled(b, s, n)
  {
    hide Spoiled, AtRest;
    var s1 := Refuses(b, s, n);
    z := RollsBackFrom(b, s1, n);
    assert End(TunnelAt(s1, n), b.a).threads == End(TunnelAt(s, n), b.a).threads;
  }

  lemma RefusalSpoils(b: Attempt, s: Sys, n: Name)
    requires AtReady(b, s, n) && !Restored(b, RolledBack(b, TunnelAt(s, n)))
    ensures Spoiled(b, s, n)
  {
    var z := Refused(b, s, n);
    RestSpoils(b, z, n);
  }

  // ---- sequences that hold ----

  predicate AboutToHold(x: Tunnel, u: nat) {
    u in x.threads && x.threads[u].Retrier? && (x.threads[u].retryAt.Notified? || x.threads[u].retryAt.Registered?)
  }

  /** Everything but the slot and thread u is as it was. */
  predicate OnlyThread(x: Tunnel, y: Tunnel, u: nat) {
    y.entry == x.entry && y.wg == x.wg && y.threads.Keys == x.threads.Keys &&
    forall v | v in x.threads && v != u && !x.threads[v].Retrier? :: y.threads[v] == x.threads[v]
  }

  lemma Registers(b: Attempt, s: Sys, n: Name, u: nat) returns (z: Sys)
    requires Under(b, s, n) && u in TunnelAt(s, n).threads && TunnelAt(s, n).threads[u].Retrier? &&
             TunnelAt(s, n).threads[u].retryAt.Notified?
    ensures Under(b, z, n) && OnlyThread(TunnelAt(s, n), TunnelAt(z, n), u)
    ensures TunnelAt(z, n).threads[u].Retrier? && TunnelAt(z, n).threads[u].retryAt.Registered?
    ensures Spoiled(b, z, n) ==> Spoiled(b, s, n)
  {
    hide Spoiled;
    z := RetryOn(b, s, n, u, Register);
  }

  lemma HoldsNow(b: Attempt, s: Sys, n: Name, u: nat) returns (z: Sys)
    requires Under(b, s, n) && u in TunnelAt(s, n).threads && TunnelAt(s, n).threads[u].Retrier? &&
             TunnelAt(s, n).threads[u].retryAt.Registered?
    ensures Under(b, z, n) && OnlyThread(TunnelAt(s, n), TunnelAt(z, n), u) && TunnelAt(z, n).slot.held > 0
    ensures Spoiled(b, z, n) ==> Spoiled(b, s, n)
  {
    hide Spoiled;
    z := RetryOn(b, s, n, u, Hold);
  }

  lemma Suspends(b: Attempt, s: Sys, n: Name, u: nat) returns (z: Sys)
    requires Under(b, s, n) && AboutToHold(TunnelAt(s, n), u)
    ensures Under(b, z, n) && OnlyThread(TunnelAt(s, n), TunnelAt(z, n), u) && TunnelAt(z, n).slot.held > 0
    ensures Spoiled(b, z, n) ==> Spoiled(b, s, n)
  {
    hide Spoiled, Under;
    if TunnelAt(s, n).threads[u].retryAt.Notified? {
      var s1 := Registers(b, s, n, u);
      z := HoldsNow(b, s1, n, u);
    } else {
      z := HoldsNow(b, s, n, u);
    }
  }

  lemma SuspendSpoils(b: Attempt, s: Sys, n: Name, u: nat)
    requires (AtReady(b, s, n) || AtRest(b, s, n)) && AboutToHold(TunnelAt(s, n), u)
    ensures Spoiled(b, s, n)
  {
    var z := Suspends(b, s, n, u);
    if AtReady(b, s, n) {
      RefusalSpoils(b, z, n);
    } else {
      RestSpoils(b, z, n);
    }
  }

  // ---- sequences that give their hold back ----

  lemma Replaced(b: Attempt, s: Sys, n: Name, u: nat) returns (z: Sys)
    requires Under(b, s, n) && HoldsAt(TunnelAt(s, n), u) && TunnelAt(s, n).threads[u].retryAt.Replacing?
    ensures Under(b, z, n) && OnlyThread(TunnelAt(s, n), TunnelAt(z, n), u) && TunnelAt(z, n).slot == TunnelAt(s, n).slot
    ensures HoldsAt(TunnelAt(z, n), u) && (TunnelAt(z, n).threads[u].retryAt.Ending? || TunnelAt(z, n).threads[u].retryAt.Backoff?)
    ensures var th := TunnelAt(s, n).threads[u];
      MayCall(th, b.maxAttempts) ==> TunnelAt(z, n).threads[u].retryAt.Backoff? && !TunnelAt(z, n).threads[u].cancelled
    ensures Spoiled(b, z, n) ==> Spoiled(b, s, n)
  {
    hide Spoiled;
    z := RetryOn(b, s, n, u, Replace);
  }

  lemma Panics(b: Attempt, s: Sys, n: Name, u: nat) returns (z: Sys)
    requires Under(b, s, n) && HoldsAt(TunnelAt(s, n), u) && Looping(TunnelAt(s, n).threads[u].retryAt)
    ensures Under(b, z, n) && OnlyThread(TunnelAt(s, n), TunnelAt(z, n), u) && TunnelAt(z, n).slot == TunnelAt(s, n).slot
    ensures HoldsAt(TunnelAt(z, n), u) && TunnelAt(z, n).threads[u].retryAt.Ending?
    ensures Spoiled(b, z, n) ==> Spoiled(b, s, n)
  {
    hide Spoiled;
    z := RetryOn(b, s, n, u, Panic);
  }

  lemma Ends(b: Attempt, s: Sys, n: Name, u: nat) returns (z: Sys)
    requires Under(b, s, n) && HoldsAt(TunnelAt(s, n), u)
    ensures Under(b, z, n) && OnlyThread(TunnelAt(s, n), TunnelAt(z, n), u) && TunnelAt(z, n).slot == TunnelAt(s, n).slot
    ensures HoldsAt(TunnelAt(z, n), u) && TunnelAt(z, n).threads[u].retryAt.Ending?
    ensures Spoiled(b, z, n) ==> Spoiled(b, s, n)
  {
    hide Spoiled;
    z := s;
    if TunnelAt(z, n).threads[u].retryAt.Replacing? {
      z := Replaced(b, z, n, u);
    }
    if !TunnelAt(z, n).threads[u].retryAt.Ending? {
      z := Panics(b, z, n, u);
    }
  }

  /** A hold that is given back for a tunnel that is down and wanted with auto-reconnect leaves a block. */
  lemma GivesBack(b: Attempt, s: Sys, n: Name, u: nat) returns (z: Sys)
    requires Under(b, s, n) && HoldsAt(TunnelAt(s, n), u) && IsDown(TunnelAt(s, n)) && b.killSwitch
    requires var x := TunnelAt(s, n).slot; x.held == 0 && !x.pending && Auto(x)
    ensures Under(b, z, n) && TunnelAt(z, n).slot.blocked.Some? && IsDown(TunnelAt(z, n))
    ensures TunnelAt(z, n).threads.Keys == TunnelAt(s, n).threads.Keys - {u}
    ensures forall v | v in TunnelAt(z, n).threads && !TunnelAt(s, n).threads[v].Retrier? :: TunnelAt(z, n).threads[v] == TunnelAt(s, n).threads[v]
    ensures Spoiled(b, z, n) ==> Spoiled(b, s, n)
  {
    var s1 := Ends(b, s, n, u);
    hide Spoiled;
    z := RetryOn(b, s1, n, u, Release);
  }

  lemma GiveBackSpoils(b: Attempt, s: Sys, n: Name, u: nat)
    requires (AtReady(b, s, n) && !b.lifted) || AtRest(b, s, n)
    requires HoldsAt(TunnelAt(s, n), u) && b.killSwitch && !b.blocked
    requires var x := TunnelAt(s, n).slot; x.held == 0 && !x.pending && Auto(x)
    ensures Spoiled(b, s, n)
  {
    var z := GivesBack(b, s, n, u);
    if AtReady(b, s, n) {
      assert b.a in TunnelAt(z, n).threads;
      RefusalSpoils(b, z, n);
    } else {
      RestSpoils(b, z, n);
    }
  }

  // ---- deaths ----

  /** What forgetting or holding makes of a slot. */
  predicate ForgotOrHeld(ks: bool, x: Slot, y: Slot) {
    && y.held == x.held && !y.through
    && (if Auto(x) then y.pending && Auto(y) else !y.pending && !Auto(y) && (Wanted(x) && ks ==> y.blocked.Some?))
  }

  /** The final status and the end of the mark of a death leave the request alone. */
  lemma ProcessReported(b: Attempt, s: Sys, n: Name, u: nat) returns (z: Sys)
    requires Under(b, s, n) && u in TunnelAt(s, n).threads && TunnelAt(s, n).threads[u].Teardown?
    requires Unforgotten(TunnelAt(s, n).threads[u])
    ensures Under(b, z, n) && TunnelAt(z, n) == Put(TunnelAt(s, n), u, Teardown(true, Undying)).(slot := TunnelAt(z, n).slot)
    ensures var x, y := TunnelAt(s, n).slot, TunnelAt(z, n).slot;
      && y.auto == x.auto && y.wgConfig == x.wgConfig && y.ovpnConfig == x.ovpnConfig && y.held == x.held
      && (TunnelAt(s, n).entry.Some? ==> y.blocked == x.blocked)
    ensures Spoiled(b, z, n) ==> Spoiled(b, s, n)
  {
    hide Spoiled;
    z := s;
    if TunnelAt(z, n).threads[u].tearAt.Removed? {
      z := TearOn(b, z, n, u, Report);
      assert TunnelAt(z, n).threads[u] == Teardown(true, TearStage.Reported);
    }
    if TunnelAt(z, n).threads[u].tearAt.Reported? {
      z := TearOn(b, z, n, u, OnDied);
    }
    assert TunnelAt(z, n).threads == TunnelAt(s, n).threads[u := Teardown(true, Undying)];
  }

  lemma ForgetIs(ks: bool, x: Slot, proto: Protocol)
    ensures var y := ForgetOrHoldSlot(x, ks, proto);
      ForgotOrHeld(ks, x, y) && (!Wanted(x) ==> y.blocked == x.blocked)
  {}

  lemma ForgetsNow(b: Attempt, s: Sys, n: Name, u: nat) returns (z: Sys)
    requires Under(b, s, n) && u in TunnelAt(s, n).threads && TunnelAt(s, n).threads[u] == Teardown(true, Undying)
    ensures Under(b, z, n) && TunnelAt(z, n).slot == ForgetOrHoldSlot(TunnelAt(s, n).slot, b.killSwitch, OpenVPN)
    ensures TunnelAt(z, n) == Put(TunnelAt(s, n), u, Teardown(true, Forgotten)).(slot := TunnelAt(z, n).slot)
    ensures Spoiled(b, z, n) ==> Spoiled(b, s, n)
  {
    hide Spoiled, ForgetOrHoldSlot;
    z := TearOn(b, s, n, u, Forget);
    assert TunnelAt(z, n).threads == TunnelAt(s, n).threads[u := Teardown(true, Forgotten)];
  }

  /** A process's death, from its removal on. */
  lemma ProcessForgotten(b: Attempt, s: Sys, n: Name, u: nat) returns (z: Sys)
    requires Under(b, s, n) && u in TunnelAt(s, n).threads
    requires TunnelAt(s, n).threads[u].Teardown? && Unforgotten(TunnelAt(s, n).threads[u])
    ensures Under(b, z, n) && ForgotOrHeld(b.killSwitch, TunnelAt(s, n).slot, TunnelAt(z, n).slot)
    ensures TunnelAt(z, n) == Put(TunnelAt(s, n), u, Teardown(true, Forgotten)).(slot := TunnelAt(z, n).slot)
    ensures Spoiled(b, z, n) ==> Spoiled(b, s, n)
    ensures TunnelAt(s, n).entry.Some? && !Wanted(TunnelAt(s, n).slot) ==> TunnelAt(z, n).slot.blocked == TunnelAt(s, n).slot.blocked
  {
    hide Spoiled, Under, ForgetOrHoldSlot;
    var s1 := ProcessReported(b, s, n, u);
    z := ForgetsNow(b, s1, n, u);
    ForgetIs(b.killSwitch, TunnelAt(s1, n).slot, OpenVPN);
    assert TunnelAt(z, n).threads == TunnelAt(s, n).threads[u := Teardown(true, Forgotten)];
  }

  lemma EngineForgotten(b: Attempt, s: Sys, n: Name, u: nat) returns (z: Sys)
    requires Under(b, s, n) && u in TunnelAt(s, n).threads && TunnelAt(s, n).wg.None?
    requires TunnelAt(s, n).threads[u].WgDeath? && Unforgotten(TunnelAt(s, n).threads[u])
    ensures Under(b, z, n) && ForgotOrHeld(b.killSwitch, TunnelAt(s, n).slot, TunnelAt(z, n).slot)
    ensures TunnelAt(z, n) == Put(TunnelAt(s, n), u, WgDeath(Handled)).(slot := TunnelAt(z, n).slot)
    ensures Spoiled(b, z, n) ==> Spoiled(b, s, n)
    ensures !Wanted(TunnelAt(s, n).slot) ==> Auto(TunnelAt(s, n).slot) || TunnelAt(z, n).slot.blocked == TunnelAt(s, n).slot.blocked
  {
    hide Spoiled;
    z := s;
    if TunnelAt(z, n).threads[u].deathAt.Down? {
      z := WgOn(b, z, n, u, Vanish);
    }
    z := WgOn(b, z, n, u, ForgetWg);
    assert TunnelAt(z, n).threads == TunnelAt(s, n).threads[u := WgDeath(Handled)];
  }

  lemma Forgets(b: Attempt, s: Sys, n: Name, u: nat) returns (z: Sys)
    requires Under(b, s, n) && u in TunnelAt(s, n).threads && TunnelAt(s, n).wg.None? && Unforgotten(TunnelAt(s, n).threads[u])
    ensures Under(b, z, n) && ForgotOrHeld(b.killSwitch, TunnelAt(s, n).slot, TunnelAt(z, n).slot)
    ensures u in TunnelAt(z, n).threads && Unnotified(TunnelAt(z, n).threads[u])
    ensures TunnelAt(z, n) == Put(TunnelAt(s, n), u, TunnelAt(z, n).threads[u]).(slot := TunnelAt(z, n).slot)
    ensures Spoiled(b, z, n) ==> Spoiled(b, s, n)
    ensures TunnelAt(s, n).entry.Some? && !Wanted(TunnelAt(s, n).slot) && !Auto(TunnelAt(s, n).slot) ==>
              TunnelAt(z, n).slot.blocked == TunnelAt(s, n).slot.blocked
  {
    if TunnelAt(s, n).threads[u].Teardown? {
      z := ProcessForgotten(b, s, n, u);
    } else {
      z := EngineForgotten(b, s, n, u);
    }
  }

  /** A death that the monitor hears of starts a sequence. */
  lemma NoticeSpoils(b: Attempt, s: Sys, n: Name, u: nat)
    requires (AtReady(b, s, n) || AtRest(b, s, n)) && u in TunnelAt(s, n).threads && u != b.a
    requires Unnotified(TunnelAt(s, n).threads[u]) && Auto(TunnelAt(s, n).slot)
    ensures Spoiled(b, s, n)
  {
    hide Spoiled;
    var z;
    if TunnelAt(s, n).threads[u].Teardown? {
      z := TearOn(b, s, n, u, NotifyDeath);
    } else {
      z := WgOn(b, s, n, u, NotifyWg);
    }
    SuspendSpoils(b, z, n, u);
  }

  /** A death that is forgotten, or held, while the connect waits to call the manager. */
  lemma ForgettingSpoils(b: Attempt, s: Sys, n: Name, u: nat)
    requires AtReady(b, s, n) && u in TunnelAt(s, n).threads && u != b.a && Unforgotten(TunnelAt(s, n).threads[u])
    requires var x := TunnelAt(s, n).slot; Auto(x) || (b.killSwitch && !b.blocked && (b.lifted || Wanted(x)))
    ensures Spoiled(b, s, n)
  {
    var z := Forgets(b, s, n, u);
    if Auto(TunnelAt(s, n).slot) {
      NoticeSpoils(b, z, n, u);
    } else {
      RefusalSpoils(b, z, n);
    }
  }

  /** Or after it has failed. */
  lemma LateForgettingSpoils(b: Attempt, s: Sys, n: Name, u: nat)
    requires AtRest(b, s, n) && u in TunnelAt(s, n).threads && Unforgotten(TunnelAt(s, n).threads[u])
    requires var x := TunnelAt(s, n).slot; Auto(x) || (b.killSwitch && !b.blocked && Wanted(x))
    ensures Spoiled(b, s, n)
  {
    var z := Forgets(b, s, n, u);
    RestSpoils(b, z, n);
  }

  /** A final status takes the pass through another tunnel's block for a block of this one. */
  lemma ReportSpoils(b: Attempt, s: Sys, n: Name, u: nat)
    requires AtReady(b, s, n) && ReportsAt(TunnelAt(s, n), u) && b.lifted && b.killSwitch && !b.blocked
    requires var x := TunnelAt(s, n).slot; !x.dying && x.held == 0 && x.pending
    ensures Spoiled(b, s, n)
  {
    hide Spoiled;
    var z := TearOn(b, s, n, u, Report);
    RefusalSpoils(b, z, n);
  }

  // ---- attempts whose process fails later ----

  /** The process is launched. */
  lemma Started(b: Attempt, s: Sys, n: Name) returns (z: Sys)
    requires AtLaunch(b, s, n)
    ensures Under(b, z, n) && z.mu.None?
    ensures TunnelAt(z, n) == End(TunnelAt(s, n), b.a).(entry := Some(Reserved(b.a).(launcher := None)))
    ensures Spoiled(b, z, n) ==> Spoiled(b, s, n)
  {
    hide Spoiled;
    z := CallOn(b, s, n, b.a, Finish(true, "", Pass("", "", [])));
  }

  /** It leaves without having come up; its entry is gone. */
  lemma LaunchedAndGone(b: Attempt, s: Sys, n: Name) returns (z: Sys, w: nat)
    requires AtLaunch(b, s, n)
    ensures w >= b.first && w !in TunnelAt(s, n).threads && z.killSwitch == b.killSwitch && z.maxAttempts == b.maxAttempts
    ensures z.mu.None? && w < z.nextId
    ensures TunnelAt(z, n) == Put(End(TunnelAt(s, n), b.a), w, Teardown(false, Removed)).(entry := None)
    ensures Spoiled(b, z, n) ==> Spoiled(b, s, n)
  {
    hide Spoiled;
    var s1 := Started(b, s, n);
    w := s1.nextId;
    var s2 := TearOn(b, s1, n, w, BeginTear);
    assert TunnelAt(s2, n).threads[w] == Teardown(false, Decided);
    z := TearOn(b, s2, n, w, Remove);
    assert TunnelAt(z, n).threads == (TunnelAt(s, n).threads - {b.a})[w := Teardown(false, Removed)];
  }

  /** The OpenVPN manager has reserved the name for the attempt. */
  ghost predicate AtLaunch(b: Attempt, s: Sys, n: Name) {
    && Under(b, s, n) && TunnelAt(s, n).wg.None? && TunnelAt(s, n).entry == Some(Reserved(b.a)) && b.proto.OpenVPN?
    && ConnectorAt(TunnelAt(s, n), b.a, InConnect(b.lifted)) && TunnelAt(s, n).threads[b.a].proto == b.proto
  }

  lemma Launches(b: Attempt, s: Sys, n: Name) returns (z: Sys)
    requires AtReady(b, s, n) && b.proto.OpenVPN?
    ensures AtLaunch(b, z, n)
    ensures TunnelAt(z, n) == MoveConnector(TunnelAt(s, n).(entry := Some(Reserved(b.a))), b.a, InConnect(b.lifted))
    ensures Spoiled(b, z, n) ==> Spoiled(b, s, n)
  {
    hide Spoiled;
    z := CallOn(b, s, n, b.a, Begin(false));
  }

  /** It reports its final status. */
  lemma Reported(b: Attempt, s: Sys, n: Name) returns (z: Sys)
    requires AtLaunch(b, s, n)
    ensures AtRest(b, z, n) && z.mu.None? && TunnelAt(z, n).threads == TunnelAt(s, n).threads - {b.a}
    ensures TunnelAt(z, n).slot == GoneSlot(TunnelAt(s, n).slot, b.killSwitch)
    ensures Spoiled(b, z, n) ==> Spoiled(b, s, n)
  {
    var s1, w := LaunchedAndGone(b, s, n);
    hide Spoiled;
    z := TearOn(b, s1, n, w, Report);
    assert TunnelAt(z, n).threads == TunnelAt(s, n).threads - {b.a};
  }

  /** A death in progress hides the process's final status, and the pending hold stays. */
  lemma DyingSpoils(b: Attempt, s: Sys, n: Name)
    requires AtReady(b, s, n) && b.proto.OpenVPN? && TunnelAt(s, n).slot.dying && TunnelAt(s, n).slot.pending
    ensures Spoiled(b, s, n)
  {
    var s1 := Launches(b, s, n);
    var z := Reported(b, s1, n);
    RestSpoils(b, z, n);
  }

  /** The process fails, and then a sequence gives its hold back. */
  lemma LateGiveBackSpoils(b: Attempt, s: Sys, n: Name, u: nat)
    requires AtReady(b, s, n) && b.proto.OpenVPN? && HoldsAt(TunnelAt(s, n), u) && b.lifted && b.killSwitch && !b.blocked
    requires var x := TunnelAt(s, n).slot; x.held == 0 && x.pending && x.through && Auto(x)
    ensures Spoiled(b, s, n)
  {
    var s1 := Launches(b, s, n);
    var z := Reported(b, s1, n);
    if TunnelAt(z, n).slot.pending {
      RestSpoils(b, z, n);
    } else {
      GiveBackSpoils(b, z, n, u);
    }
  }

  /** A forgotten request under a lifted block: the process fails with nothing to restore. */
  lemma ForgottenRequestSpoils(b: Attempt, s: Sys, n: Name, u: nat)
    requires AtReady(b, s, n) && b.proto.OpenVPN? && b.blocked && u in TunnelAt(s, n).threads && u != b.a
    requires Unforgotten(TunnelAt(s, n).threads[u])
    requires var x := TunnelAt(s, n).slot; x.held == 0 && !Wanted(x) && !Auto(x) && x.blocked.None?
    ensures Spoiled(b, s, n)
  {
    var s1 := Launches(b, s, n);
    var s2 := Forgets(b, s1, n, u);
    var z := Reported(b, s2, n);
    RestSpoils(b, z, n);
  }

  // ---- a sequence that calls while the process is leaving ----

  predicate BeforeCall(x: Tunnel, u: nat) {
    u in x.threads && x.threads[u].Retrier? && (x.threads[u].retryAt.Attempting? || x.threads[u].retryAt.Queued?)
  }

  /** The parts of the slot that the sequence and the process look at. */
  predicate SameRequest(x: Slot, y: Slot) {
    y.wgConfig == x.wgConfig && y.ovpnConfig == x.ovpnConfig && y.auto == x.auto && y.pending == x.pending
  }

  /** A sequence between two attempts starts the next one. */
  lemma Fires(b: Attempt, s: Sys, n: Name, u: nat) returns (z: Sys)
    requires AtReady(b, s, n) && HoldsAt(TunnelAt(s, n), u)
    requires TunnelAt(s, n).threads[u].retryAt.Backoff? && !TunnelAt(s, n).threads[u].cancelled
    ensures AtReady(b, z, n) && BeforeCall(TunnelAt(z, n), u) && SameRequest(TunnelAt(s, n).slot, TunnelAt(z, n).slot)
    ensures TunnelAt(z, n).threads[b.a] == TunnelAt(s, n).threads[b.a]
    ensures Spoiled(b, z, n) ==> Spoiled(b, s, n)
  {
    hide Spoiled;
    z := RetryOn(b, s, n, u, Fire);
  }

  lemma GivesUpWaiting(b: Attempt, s: Sys, n: Name, u: nat) returns (z: Sys)
    requires AtReady(b, s, n) && HoldsAt(TunnelAt(s, n), u) && TunnelAt(s, n).threads[u].retryAt.Waiting?
    requires MayCall(TunnelAt(s, n).threads[u], b.maxAttempts)
    ensures AtReady(b, z, n) && HoldsAt(TunnelAt(z, n), u) && SameRequest(TunnelAt(s, n).slot, TunnelAt(z, n).slot)
    ensures TunnelAt(z, n).threads[b.a] == TunnelAt(s, n).threads[b.a]
    ensures TunnelAt(z, n).threads[u].retryAt.Backoff? && !TunnelAt(z, n).threads[u].cancelled
    ensures Spoiled(b, z, n) ==> Spoiled(b, s, n)
  {
    hide Spoiled;
    z := RetryOn(b, s, n, u, Timeout);
  }

  lemma LookedUp(b: Attempt, s: Sys, n: Name, u: nat) returns (z: Sys)
    requires AtReady(b, s, n) && HoldsAt(TunnelAt(s, n), u) && TunnelAt(s, n).threads[u].retryAt.Resolving?
    ensures AtReady(b, z, n) && BeforeCall(TunnelAt(z, n), u) && SameRequest(TunnelAt(s, n).slot, TunnelAt(z, n).slot)
    ensures TunnelAt(z, n).threads[b.a] == TunnelAt(s, n).threads[b.a]
    ensures Spoiled(b, z, n) ==> Spoiled(b, s, n)
  {
    hide Spoiled;
    z := RetryOn(b, s, n, u, CloseRetryWindow([]));
  }

  /** The sequence gets to the call of its next attempt. */
  lemma Approaches(b: Attempt, s: Sys, n: Name, u: nat) returns (z: Sys)
    requires AtReady(b, s, n) && HoldsAt(TunnelAt(s, n), u) && MayCall(TunnelAt(s, n).threads[u], b.maxAttempts)
    requires !Locked(TunnelAt(s, n).threads[u])
    ensures AtReady(b, z, n) && BeforeCall(TunnelAt(z, n), u) && SameRequest(TunnelAt(s, n).slot, TunnelAt(z, n).slot)
    ensures TunnelAt(z, n).threads[b.a] == TunnelAt(s, n).threads[b.a]
    ensures Spoiled(b, z, n) ==> Spoiled(b, s, n)
  {
    hide Spoiled;
    var at := TunnelAt(s, n).threads[u].retryAt;
    if at.Replacing? {
      var s1 := Replaced(b, s, n, u);
      z := Fires(b, s1, n, u);
    } else if at.Waiting? {
      var s1 := GivesUpWaiting(b, s, n, u);
      z := Fires(b, s1, n, u);
    } else if at.Backoff? {
      z := Fires(b, s, n, u);
    } else if at.Resolving? {
      z := LookedUp(b, s, n, u);
    } else {
      z := s;
    }
  }

  lemma Locks(b: Attempt, s: Sys, n: Name, u: nat) returns (z: Sys)
    requires s.mu.None? && BeforeCall(TunnelAt(s, n), u)
    ensures Moves(s, n, MoveRetrier(TunnelAt(s, n), u, Checking), Some(u), z) && (Spoiled(b, z, n) ==> Spoiled(b, s, n))
  {
    hide Spoiled;
    z := RetryOn(b, s, n, u, Enter);
  }

  /** The sequence gets connectMu and is about to call the manager of what is wanted. */
  lemma Enters(b: Attempt, s: Sys, n: Name, u: nat) returns (z: Sys)
    requires s.mu.None? && BeforeCall(TunnelAt(s, n), u) && Auto(TunnelAt(s, n).slot) && Wanted(TunnelAt(s, n).slot)
    ensures z.killSwitch == s.killSwitch && z.maxAttempts == s.maxAttempts && z.nextId > s.nextId
    ensures TunnelAt(z, n) == MoveRetrier(TunnelAt(s, n), u, Calling(if TunnelAt(s, n).slot.wgConfig.Some? then WireGuard else OpenVPN))
    ensures Spoiled(b, z, n) ==> Spoiled(b, s, n)
  {
    hide Spoiled;
    var s1 := Locks(b, s, n, u);
    z := RetryOn(b, s1, n, u, Check);
    assert TunnelAt(z, n).threads[u] == TunnelAt(s, n).threads[u].(retryAt := TunnelAt(z, n).threads[u].retryAt);
    assert TunnelAt(z, n).threads == TunnelAt(s, n).threads[u := TunnelAt(z, n).threads[u]];
  }

  /** It reserves the name between the removal of the old entry and its final status. */
  lemma Reserves(b: Attempt, s: Sys, n: Name, u: nat) returns (z: Sys)
    requires s.mu.None? && IsDown(TunnelAt(s, n)) && BeforeCall(TunnelAt(s, n), u) && CallsOvpn(TunnelAt(s, n).slot)
    ensures TunnelAt(z, n) == MoveRetrier(TunnelAt(s, n).(entry := Some(Reserved(u))), u, Connecting(OpenVPN))
    ensures Spoiled(b, z, n) ==> Spoiled(b, s, n)
  {
    hide Spoiled;
    var s1 := Enters(b, s, n, u);
    z := CallOn(b, s1, n, u, Begin(false));
    assert TunnelAt(z, n).threads == TunnelAt(s, n).threads[u := TunnelAt(s, n).threads[u].(retryAt := Connecting(OpenVPN))];
  }

  /** The final status is ignored for the new entry, whose launch then fails: the pending hold stays. */
  lemma SwallowedSpoils(b: Attempt, s: Sys, n: Name, u: nat, w: nat)
    requires u in TunnelAt(s, n).threads && TunnelAt(s, n).threads[u].Retrier? && TunnelAt(s, n).threads[u].retryAt == Connecting(OpenVPN)
    requires var x := TunnelAt(s, n);
      x.entry.Some? && x.slot.pending && u != w && w in x.threads && x.threads[w] == Teardown(false, Removed) &&
      b.a !in x.threads && forall v | v in x.threads && v != w :: v < b.first
    ensures Spoiled(b, s, n)
  {
    hide Spoiled;
    var s1 := TearOn(b, s, n, w, Report);
    var z := CallOn(b, s1, n, u, Finish(false, "", Pass("", "", [])));
    SpoiledNow(b, z, n);
  }

  lemma CallSpoils(b: Attempt, s: Sys, n: Name, u: nat)
    requires AtReady(b, s, n) && b.proto.OpenVPN? && TunnelAt(s, n).slot.pending && CallsOvpn(TunnelAt(s, n).slot)
    requires HoldsAt(TunnelAt(s, n), u) && MayCall(TunnelAt(s, n).threads[u], b.maxAttempts) && !Locked(TunnelAt(s, n).threads[u])
    ensures Spoiled(b, s, n)
  {
    var s0 := Approaches(b, s, n, u);
    var s1 := Launches(b, s0, n);
    var s2, w := LaunchedAndGone(b, s1, n);
    var z := Reserves(b, s2, n, u);
    SwallowedSpoils(b, z, n, u, w);
  }

  // ---- a wake during the attempt ----

  /** A sequence that the wake has begun suspends after the attempt. */
  lemma WokenSuspendSpoils(b: Attempt, s: Sys, n: Name, w: nat)
    requires b.a !in TunnelAt(s, n).threads && TunnelAt(s, n).entry.None? && w in TunnelAt(s, n).threads
    requires TunnelAt(s, n).threads[w] == Retrier(Notified, false, 0) && forall v | v in TunnelAt(s, n).threads && v != w :: v < b.first
    ensures Spoiled(b, s, n)
  {
    hide Spoiled;
    var s1 := RetryOn(b, s, n, w, Register);
    var z := RetryOn(b, s1, n, w, Hold);
    SpoiledNow(b, z, n);
  }

  /** The manager has claimed the name, for the attempt or for a sequence. */
  lemma Wakes(b: Attempt, s: Sys, n: Name) returns (z: Sys)
    requires b.wakes && TunnelAt(s, n).wg.Some? && Auto(TunnelAt(s, n).slot)
    ensures z.mu == s.mu && TunnelAt(z, n) == Put(TunnelAt(s, n), s.nextId, Retrier(Notified, false, 0))
    ensures Spoiled(b, z, n) ==> Spoiled(b, s, n)
  {
    hide Spoiled;
    z := RetryOn(b, s, n, s.nextId, HealthCheck);
  }

  /** A sequence of the tunnel's earlier life starts an engine once the attempt is over. */
  lemma LateEngineSpoils(b: Attempt, s: Sys, n: Name, u: nat)
    requires AtRest(b, s, n) && s.mu.None? && b.wakes && BeforeCall(TunnelAt(s, n), u)
    requires Auto(TunnelAt(s, n).slot) && TunnelAt(s, n).slot.wgConfig.Some?
    ensures Spoiled(b, s, n)
  {
    var s1 := StartsOver(b, s, n, u);
    hide Spoiled;
    var w := s1.nextId;
    var z := Wakes(b, s1, n);
    assert w !in TunnelAt(s1, n).threads;
    WokenSuspendSpoils(b, z, n, w);
  }

  lemma StartsOver(b: Attempt, s: Sys, n: Name, u: nat) returns (z: Sys)
    requires AtRest(b, s, n) && s.mu.None? && BeforeCall(TunnelAt(s, n), u)
    requires Auto(TunnelAt(s, n).slot) && TunnelAt(s, n).slot.wgConfig.Some?
    ensures Under(b, z, n) && TunnelAt(z, n).threads.Keys == TunnelAt(s, n).threads.Keys
    ensures TunnelAt(z, n).wg.Some? && TunnelAt(z, n).entry.None? && TunnelAt(z, n).slot == TunnelAt(s, n).slot
    ensures Spoiled(b, z, n) ==> Spoiled(b, s, n)
  {
    hide Spoiled;
    var s1 := Enters(b, s, n, u);
    z := CallOn(b, s1, n, u, Begin(false));
  }

  /** The sequence has got to its next call while the attempt ran, which then fails at once or after its launch. */
  lemma EngineSpoils(b: Attempt, s: Sys, n: Name, u: nat)
    requires AtReady(b, s, n) && b.wakes && CallsEngineLater(TunnelAt(s, n), b.a)
    requires HoldsAt(TunnelAt(s, n), u) && MayCall(TunnelAt(s, n).threads[u], b.maxAttempts) && !Locked(TunnelAt(s, n).threads[u])
    ensures Spoiled(b, s, n)
  {
    hide Spoiled;
    var s1 := Approaches(b, s, n, u);
    if b.proto.WireGuard? {
      var z := Refused(b, s1, n);
      LateEngineSpoils(b, z, n, u);
    } else {
      var s2 := Launches(b, s1, n);
      var z := Reported(b, s2, n);
      LateEngineSpoils(b, z, n, u);
    }
  }

  /** The attempt starts its engine. */
  lemma StartsEngine(b: Attempt, s: Sys, n: Name) returns (z: Sys)
    requires AtReady(b, s, n) && b.proto.WireGuard?
    ensures Under(b, z, n) && ConnectorAt(TunnelAt(z, n), b.a, InConnect(b.lifted)) && TunnelAt(z, n).threads[b.a].proto == b.proto
    ensures TunnelAt(z, n).wg.Some? && TunnelAt(z, n).entry.None? && TunnelAt(z, n).slot == TunnelAt(s, n).slot
    ensures Spoiled(b, z, n) ==> Spoiled(b, s, n)
  {
    hide Spoiled;
    z := CallOn(b, s, n, b.a, Begin(false));
  }

  /** A woken sequence, and the attempt at some stage of its failure. */
  ghost predicate Woken(b: Attempt, s: Sys, n: Name, w: nat, stage: ConnectStage) {
    var x := TunnelAt(s, n);
    && b.proto.WireGuard? && ConnectorAt(x, b.a, stage) && x.threads[b.a].proto == b.proto && x.entry.None?
    && w in x.threads && x.threads[w] == Retrier(Notified, false, 0) && forall v | v in x.threads && v != w :: v < b.first
  }

  lemma WokenRestoringSpoils(b: Attempt, s: Sys, n: Name, w: nat)
    requires Woken(b, s, n, w, Restoring)
    ensures Spoiled(b, s, n)
  {
    hide Spoiled;
    var z := UserOn(b, s, n, b.a, RestoreBlock);
    WokenSuspendSpoils(b, z, n, w);
  }

  lemma WokenFailedSpoils(b: Attempt, s: Sys, n: Name, w: nat)
    requires Woken(b, s, n, w, Failed(b.lifted))
    ensures Spoiled(b, s, n)
  {
    hide Spoiled;
    var z := UserOn(b, s, n, b.a, Uncache);
    if b.lifted { WokenRestoringSpoils(b, z, n, w); } else { WokenSuspendSpoils(b, z, n, w); }
  }

  lemma WokenConnectSpoils(b: Attempt, s: Sys, n: Name, w: nat)
    requires Woken(b, s, n, w, InConnect(b.lifted))
    ensures Spoiled(b, s, n)
  {
    hide Spoiled;
    var z := CallOn(b, s, n, b.a, Finish(false, "", Pass("", "", [])));
    WokenFailedSpoils(b, z, n, w);
  }

  /** A wake while the engine of the attempt itself starts begins a sequence, whose hold outlives the failed attempt. */
  lemma WakeSpoils(b: Attempt, s: Sys, n: Name)
    requires AtReady(b, s, n) && b.wakes && b.proto.WireGuard? && Auto(TunnelAt(s, n).slot)
    ensures Spoiled(b, s, n)
  {
    hide Spoiled;
    var s1 := StartsEngine(b, s, n);
    var z := Wakes(b, s1, n);
    WokenConnectSpoils(b, z, n, s1.nextId);
  }

  // ---- everything that disturbs ----

  lemma LiftIsReady(s: Sys, n: Name, a: nat, resolved: seq<Literal>, wakes: bool)
    requires Sound(s) && AboutToLift(TunnelAt(s, n), a)
    ensures var b, x, z := AttemptOf(s, n, a, wakes), TunnelAt(s, n), AfterLift(s, n, a, resolved);
      var y := TunnelAt(z, n);
      && AtReady(b, z, n) && y.threads == x.threads[a := x.threads[a].(connectAt := Ready(b.lifted))]
      && SameAtLift(b, x.slot, y.slot)
  {
    var b, x, z := AttemptOf(s, n, a, wakes), TunnelAt(s, n), AfterLift(s, n, a, resolved);
    UserGoes(s, n, a, Lift(resolved));
    LiftIs(s, n, a, resolved);
    assert TidyAt(s, n) && SlotOk(s.killSwitch, x.slot);
    forall u | u in x.threads ensures u < b.first { assert LockFacts(s.mu, s.nextId, x, u); }
    assert a in x.threads;
    LiftKeeps(s, n, a, resolved, wakes);
    hide AfterLift, Next, Sound, LockFacts, LiftedTo;
  }

  lemma LiftKeeps(s: Sys, n: Name, a: nat, resolved: seq<Literal>, wakes: bool)
    requires AboutToLift(TunnelAt(s, n), a) && SlotOk(s.killSwitch, TunnelAt(s, n).slot)
    ensures var b, x, y := AttemptOf(s, n, a, wakes), TunnelAt(s, n), LiftedTo(s, n, a, resolved);
      && y == x.(slot := y.slot, threads := y.threads) && y.threads == x.threads[a := x.threads[a].(connectAt := Ready(b.lifted))]
      && SameAtLift(b, x.slot, y.slot)
  {}

  /** What the lift leaves of the slot. */
  predicate SameAtLift(b: Attempt, x: Slot, y: Slot) {
    && y.auto == x.auto && y.wgConfig == x.wgConfig && y.ovpnConfig == x.ovpnConfig && y.dying == x.dying && y.held == 0
    && y.pending == b.lifted && y.through == (b.lifted && !b.blocked) && y.blocked.None?
  }

  lemma SequenceSpoils(s: Sys, n: Name, a: nat, resolved: seq<Literal>, wakes: bool, u: nat)
    requires Sound(s) && AboutToLift(TunnelAt(s, n), a)
    requires u in TunnelAt(s, n).threads && TunnelAt(s, n).threads[u].Retrier? &&
             SequenceDisturbs(AttemptOf(s, n, a, wakes), TunnelAt(s, n), u)
    ensures Spoiled(AttemptOf(s, n, a, wakes), AfterLift(s, n, a, resolved), n)
  {
    var b, x, z := AttemptOf(s, n, a, wakes), TunnelAt(s, n), AfterLift(s, n, a, resolved);
    LiftIsReady(s, n, a, resolved, wakes);
    assert TidyAt(s, n) && LockFacts(s.mu, s.nextId, x, a) && LockFacts(s.mu, s.nextId, x, u);
    hide AfterLift, Spoiled, Sound;
    if !HasHold(x.threads[u]) {
      SuspendSpoils(b, z, n, u);
    } else if b.wakes && CallsEngineLater(x, a) && MayCall(x.threads[u], b.maxAttempts) {
      EngineSpoils(b, z, n, u);
    } else if !b.killSwitch || b.blocked || !(if b.lifted then AutoLater(x, a) else AutoEver(x, a)) {
      CallSpoils(b, z, n, u);
    } else if PutsBack(x, a) && x.threads[a].prevAuto == Some(true) {
      var r := Refused(b, z, n);
      GiveBackSpoils(b, r, n, u);
    } else if b.lifted {
      LateGiveBackSpoils(b, z, n, u);
    } else {
      GiveBackSpoils(b, z, n, u);
    }
  }

  lemma DeathSpoils(s: Sys, n: Name, a: nat, resolved: seq<Literal>, wakes: bool, u: nat)
    requires Sound(s) && AboutToLift(TunnelAt(s, n), a)
    requires u in TunnelAt(s, n).threads && DeathDisturbs(AttemptOf(s, n, a, wakes), TunnelAt(s, n), u)
    ensures Spoiled(AttemptOf(s, n, a, wakes), AfterLift(s, n, a, resolved), n)
  {
    var b, x, z := AttemptOf(s, n, a, wakes), TunnelAt(s, n), AfterLift(s, n, a, resolved);
    LiftIsReady(s, n, a, resolved, wakes);
    assert TidyAt(s, n) && SlotOk(s.killSwitch, x.slot);
    hide AfterLift, Spoiled, Sound;
    var th := x.threads[u];
    if Unnotified(th) && AutoEver(x, a) {
      LateNoticeSpoils(b, z, n, u);
    } else if !Unforgotten(th) || (ReportsAt(x, u) && b.lifted && !b.blocked && !x.slot.dying) {
      ReportSpoils(b, z, n, u);
    } else if Auto(x.slot) || (b.killSwitch && !b.blocked && (b.lifted || Wanted(x.slot))) {
      ForgettingSpoils(b, z, n, u);
    } else if b.blocked && b.proto.OpenVPN? && !Wanted(x.slot) {
      ForgottenRequestSpoils(b, z, n, u);
    } else {
      var r := Refused(b, z, n);
      LateForgettingSpoils(b, r, n, u);
    }
  }

  lemma LateNoticeSpoils(b: Attempt, z: Sys, n: Name, u: nat)
    requires AtReady(b, z, n) && u in TunnelAt(z, n).threads && u != b.a && Unnotified(TunnelAt(z, n).threads[u])
    requires var x := TunnelAt(z, n); Auto(x.slot) || (b.proto.WireGuard? && x.threads[b.a].prevAuto == Some(true))
    ensures Spoiled(b, z, n)
  {
    if Auto(TunnelAt(z, n).slot) {
      NoticeSpoils(b, z, n, u);
    } else {
      var r := Refused(b, z, n);
      NoticeSpoils(b, r, n, u);
    }
  }

  lemma DisturbedIsSpoiled(s: Sys, n: Name, a: nat, resolved: seq<Literal>, wakes: bool)
    requires Sound(s) && AboutToLift(TunnelAt(s, n), a) && Disturbed(AttemptOf(s, n, a, wakes), TunnelAt(s, n))
    ensures Spoiled(AttemptOf(s, n, a, wakes), AfterLift(s, n, a, resolved), n)
  {
    var b, x := AttemptOf(s, n, a, wakes), TunnelAt(s, n);
    if u :| DisturbedBy(b, x, u) {
      hide AfterLift, Spoiled, Sound, DeathDisturbs, SequenceDisturbs;
      if x.threads[u].Retrier? {
        SequenceSpoils(s, n, a, resolved, wakes, u);
      } else {
        DeathSpoils(s, n, a, resolved, wakes, u);
      }
    } else {
      LiftIsReady(s, n, a, resolved, wakes);
      if WakeDisturbs(b, x) {
        WakeSpoils(b, AfterLift(s, n, a, resolved), n);
      } else {
        DyingSpoils(b, AfterLift(s, n, a, resolved), n);
      }
    }
  }

  /** Every run in which the attempt fails restores the tunnel, if and only if nothing disturbs the attempt at its lift. */
  lemma FailedConnectRestoresExactly(s: Sys, n: Name, a: nat, resolved: seq<Literal>, wakes: bool)
    requires Sound(s) && AboutToLift(TunnelAt(s, n), a)
    ensures Spoiled(AttemptOf(s, n, a, wakes), AfterLift(s, n, a, resolved), n) <==> Disturbed(AttemptOf(s, n, a, wakes), TunnelAt(s, n))
  {
    var b, z := AttemptOf(s, n, a, wakes), AfterLift(s, n, a, resolved);
    if Disturbed(b, TunnelAt(s, n)) {
      DisturbedIsSpoiled(s, n, a, resolved, wakes);
    } else {
      forall run ensures !SpoiledBy(b, z, n, run) {
        if IsRun(z, run) && FailingRun(wakes, z, run, n) && Over(b, TunnelAt(After(z, run), n)) {
          FailedConnectRestores(s, n, a, resolved, wakes, run);
        }
      }
    }
  }

  // ---- the plainest input ----

  ghost predicate BlockedBy(b: Attempt, s: Sys, n: Name, run: seq<Event>) {
    && IsRun(s, run) && FailingRun(b.wakes, s, run, n) && Over(b, TunnelAt(After(s, run), n))
    && TunnelAt(After(s, run), n).slot.blocked.Some?
  }

  /** Some failing run from s ends the attempt with the tunnel blocked. */
  ghost predicate EndsBlocked(b: Attempt, s: Sys, n: Name) { exists run :: BlockedBy(b, s, n, run) }

  lemma BlockedLater(b: Attempt, s: Sys, n: Name, t: nat, step: Step)
    requires Enabled(s, On(n, t, step)) && Fails(b.wakes, TunnelAt(s, n), t, step) && EndsBlocked(b, Next(s, On(n, t, step)), n)
    ensures EndsBlocked(b, s, n)
  {
    var e := On(n, t, step);
    hide Enabled, Next, Fails, Over;
    var run :| BlockedBy(b, Next(s, e), n, run);
    var whole := [e] + run;
    assert whole[1..] == run;
    assert BlockedBy(b, s, n, whole);
  }

  lemma RestoreBlocks(b: Attempt, s: Sys, n: Name)
    requires Under(b, s, n) && IsDown(TunnelAt(s, n)) && b.killSwitch && !TunnelAt(s, n).slot.through
    requires ConnectorAt(TunnelAt(s, n), b.a, Restoring)
    ensures EndsBlocked(b, s, n)
  {
    UserGoes(s, n, b.a, RestoreBlock);
    hide Next, Enabled;
    assert BlockedBy(b, Next(s, On(n, b.a, User(RestoreBlock))), n, []);
    BlockedLater(b, s, n, b.a, User(RestoreBlock));
  }

  lemma RollbackBlocks(b: Attempt, s: Sys, n: Name)
    requires Under(b, s, n) && IsDown(TunnelAt(s, n)) && b.killSwitch && !TunnelAt(s, n).slot.through
    requires ConnectorAt(TunnelAt(s, n), b.a, Failed(true))
    ensures EndsBlocked(b, s, n)
  {
    UserGoes(s, n, b.a, Uncache);
    hide Next, Enabled, EndsBlocked;
    RestoreBlocks(b, Next(s, On(n, b.a, User(Uncache))), n);
    BlockedLater(b, s, n, b.a, User(Uncache));
  }

  lemma RefusalBlocks(b: Attempt, s: Sys, n: Name)
    requires AtReady(b, s, n) && b.lifted && b.killSwitch && !TunnelAt(s, n).slot.through
    ensures EndsBlocked(b, s, n)
  {
    CallGoes(s, n, b.a, Begin(true));
    hide Next, Enabled, EndsBlocked;
    RollbackBlocks(b, Next(s, On(n, b.a, Call(Begin(true)))), n);
    BlockedLater(b, s, n, b.a, Call(Begin(true)));
  }

  /** The final status of the tunnel's old process ends the pass. */
  lemma ReportEndsPass(b: Attempt, s: Sys, n: Name, u: nat) returns (z: Sys)
    requires AtReady(b, s, n) && u in TunnelAt(s, n).threads && TunnelAt(s, n).threads[u] == Teardown(false, Removed)
    requires var x := TunnelAt(s, n).slot; !x.dying && x.held == 0 && x.pending
    ensures AtReady(b, z, n) && !TunnelAt(z, n).slot.through && (EndsBlocked(b, z, n) ==> EndsBlocked(b, s, n))
  {
    TearGoes(s, n, u, Report);
    hide Next, Enabled, EndsBlocked;
    z := Next(s, On(n, u, Tear(Report)));
    if EndsBlocked(b, z, n) { BlockedLater(b, s, n, u, Tear(Report)); }
  }

  /**
   * A tunnel that was disconnected is connected again through another tunnel's block
   * before its old process has reported its final status: the status ends the pass,
   * and the failed connect then blocks what was not blocked.
   */
  lemma LateStatusBlocks(s: Sys, n: Name, a: nat, resolved: seq<Literal>, u: nat)
    requires Sound(s) && s.killSwitch && ContextOf(s).anyBlocked && AboutToLift(TunnelAt(s, n), a)
    requires var x := TunnelAt(s, n);
      x.slot.blocked.None? && !x.slot.dying && u in x.threads && x.threads[u] == Teardown(false, Removed)
    ensures EndsBlocked(AttemptOf(s, n, a, false), AfterLift(s, n, a, resolved), n)
  {
    LiftIsReady(s, n, a, resolved, false);
    hide AfterLift, Sound, EndsBlocked, AtReady;
    var z := ReportEndsPass(AttemptOf(s, n, a, false), AfterLift(s, n, a, resolved), n, u);
    RefusalBlocks(AttemptOf(s, n, a, false), z, n);
  }
}
