// Exactly which tunnels stay closed until the user acts: without auto-reconnect,
// those of whose earlier life nothing is left that could take the block away; with
// it, none, if a retry sequence can get connectMu.
module ClosedExactly {
  import opened Common
  import opened Rules
  import opened KillSwitch
  import opened HelperRuns
  import opened Steps
  import opened HelperInvariants
  import opened HoldAccounting
  import opened FailClosed
  import opened Exposure
  import opened Falling

  // ---- what endangers a tunnel without auto-reconnect ----

  /**
   * Thread u can take the protection away without any user action: a sequence that
   * has still to suspend, or that waits for the process; and a death, of an earlier
   * process or engine, that has still to be forgotten while the tunnel is back.
   */
  predicate Endangers(x: Tunnel, u: nat) {
    u in x.threads &&
      match x.threads[u]
      case Retrier(stage, _, _) =>
        stage.Notified? || stage.Registered? || (stage.Waiting? && x.entry.Some? && x.entry.value.leaving.None?)
      case Teardown(died, stage) => died && (stage.Removed? || stage.Reported? || stage.Undying?) && x.entry.Some?
      case WgDeath(stage) => !stage.Handled? && x.entry.Some?
      case _ => false
  }

  ghost predicate Endangered(x: Tunnel) { exists u :: Endangers(x, u) }

  // ---- nothing endangers it ----

  ghost predicate Secure(x: Tunnel) { Safe(x) && !Auto(x.slot) && !Endangered(x) }

  /** No step short of a user action exposes it. */
  lemma SecureIsCareful(c: Context, x: Tunnel, t: nat, step: Step)
    requires StepEnabled(c, x, t, step) && !Auto(x.slot) && !Endangers(x, t) && EntryFacts(x, t)
    ensures !Exposes(x, step)
  {}

  lemma UserSecure(c: Context, x: Tunnel, t: nat, e: ConnectEvent, u: nat)
    requires ConnectEnabled(c, x, t, e) && !Auto(x.slot) && OvpnOnly(x) && QuietAt(x, t) && EntryFacts(x, t)
    requires !Endangers(x, t) && !Endangers(x, u)
    ensures !Endangers(ConnectStep(c, x, t, e).tunnel, u)
  {}

  lemma StopSecure(c: Context, x: Tunnel, t: nat, e: DisconnectEvent, u: nat)
    requires DisconnectEnabled(c, x, t, e) && !Auto(x.slot) && OvpnOnly(x) && QuietAt(x, t) && EntryFacts(x, t)
    requires !Endangers(x, t) && !Endangers(x, u)
    ensures !Endangers(DisconnectStep(c, x, t, e).tunnel, u)
  {}

  lemma RetrySecure(c: Context, x: Tunnel, t: nat, e: RetryEvent, u: nat)
    requires RetryEnabled(c, x, t, e) && !Auto(x.slot) && OvpnOnly(x) && QuietAt(x, t) && EntryFacts(x, t)
    requires !Endangers(x, t) && !Endangers(x, u)
    ensures !Endangers(RetryStep(c, x, t, e).tunnel, u)
  {}

  lemma OvpnSecure(c: Context, x: Tunnel, t: nat, e: OvpnEvent, u: nat)
    requires OvpnEnabled(x, e) && !Auto(x.slot) && OvpnOnly(x) && QuietAt(x, t) && EntryFacts(x, t)
    requires !Endangers(x, t) && !Endangers(x, u)
    ensures !Endangers(OvpnStep(x, e), u)
  {}

  lemma TearSecure(c: Context, x: Tunnel, t: nat, e: TearEvent, u: nat)
    requires TearEnabled(c, x, t, e) && !Auto(x.slot) && OvpnOnly(x) && QuietAt(x, t) && EntryFacts(x, t)
    requires !Endangers(x, t) && !Endangers(x, u)
    ensures !Endangers(TearStep(c, x, t, e), u)
  {}

  lemma WgSecure(c: Context, x: Tunnel, t: nat, e: WgEvent, u: nat)
    requires WgEnabled(c, x, t, e) && !Auto(x.slot) && OvpnOnly(x) && QuietAt(x, t) && EntryFacts(x, t)
    requires !Endangers(x, t) && !Endangers(x, u)
    ensures !Endangers(WgStep(c, x, t, e), u)
  {}

  lemma StepSecure(c: Context, x: Tunnel, t: nat, step: Step, u: nat)
    requires StepEnabled(c, x, t, step) && !Auto(x.slot) && OvpnOnly(x) && QuietAt(x, t) && EntryFacts(x, t)
    requires !Endangers(x, t) && !Endangers(x, u)
    ensures !Endangers(TunnelStep(c, x, t, step).tunnel, u)
  {
    hide Endangers, OvpnOnly, QuietAt, EntryFacts;
    match step
    case User(e) => UserSecure(c, x, t, e, u);
    case Call(e) => PlainNeverCalls(c, x, t, e);
    case UserStop(e) => StopSecure(c, x, t, e, u);
    case Retry(e) => RetrySecure(c, x, t, e, u);
    case Ovpn(e) => OvpnSecure(c, x, t, e, u);
    case Tear(e) => TearSecure(c, x, t, e, u);
    case Wg(e) => WgSecure(c, x, t, e, u);
  }

  lemma SecureByStep(s: Sys, n: Name, t: nat, step: Step)
    requires Sound(s) && s.killSwitch && Secure(TunnelAt(s, n))
    requires Enabled(s, On(n, t, step)) && !Disturbs(step)
    ensures Careful(TunnelAt(s, n), step) && Secure(TunnelAt(Next(s, On(n, t, step)), n))
  {
    var c, x := ContextOf(s), TunnelAt(s, n);
    Goes(s, n, t, step);
    assert TidyAt(s, n) && QuietAt(x, t) && EntryFacts(x, t) && !Endangers(x, t);
    SecureIsCareful(c, x, t, step);
    StepQuiet(c, x, t, step, t);
    StepSafe(c, x, t, step);
    forall u ensures !Endangers(TunnelStep(c, x, t, step).tunnel, u) {
      assert !Endangers(x, u);
      StepSecure(c, x, t, step, u);
    }
  }

  lemma SecureByPolicy(s: Sys, e: PolicyEvent, n: Name)
    requires Enabled(s, OnPolicy(e)) && (e.SetKillSwitch? && e.loaded ==> e.on)
    requires Sound(s) && Secure(TunnelAt(s, n))
    ensures Secure(TunnelAt(PolicyStep(s, e), n))
  {
    var x, y := TunnelAt(s, n), TunnelAt(PolicyStep(s, e), n);
    PolicySafe(s, e, n);
    PolicyFrame(s, e, n);
    PolicySlotKeeps(x.slot, e, LiveAt(e.live, n));
    hide PolicySlot, IsSnapshot, Safe, Sound;
    forall u ensures !Endangers(y, u) { assert !Endangers(x, u); }
  }

  lemma SecureStep(s: Sys, e: Event, n: Name)
    requires Sound(s) && s.killSwitch && Secure(TunnelAt(s, n)) && Enabled(s, e) && Calm(e, n)
    ensures CarefulEvent(s, e, n) && Secure(TunnelAt(Next(s, e), n)) && Next(s, e).killSwitch
  {
    hide Secure, Sound;
    match e
    case OnPolicy(change) => SecureByPolicy(s, change, n);
    case On(m, t, step) => if m == n { SecureByStep(s, n, t, step); }
  }

  lemma {:induction false} SecureRunIsCareful(s: Sys, run: seq<Event>, n: Name)
    requires Sound(s) && s.killSwitch && Secure(TunnelAt(s, n)) && IsRun(s, run) && forall e | e in run :: Calm(e, n)
    ensures CarefulRun(s, run, n)
    decreases |run|
  {
    hide Secure, Sound, Enabled, Next, CarefulEvent, Calm;
    if run != [] {
      assert run[0] in run && forall e | e in run[1..] :: e in run;
      SecureStep(s, run[0], n);
      SoundStep(s, run[0]);
      SecureRunIsCareful(Next(s, run[0]), run[1..], n);
    }
  }

  /**
   * Closed until the user acts: a settled tunnel without auto-reconnect that nothing
   * endangers stays protected, and every ruleset closed, in every run without a user
   * action on it.
   */
  lemma ClosedUntilUserActs(s: Sys, run: seq<Event>, n: Name, live: seq<LiveTunnel>, dnsProtection: bool, servers: seq<string>, rs: Ruleset)
    requires Reachable(s) && s.killSwitch && Settled(TunnelAt(s, n)) && !Auto(TunnelAt(s, n).slot) && !Endangered(TunnelAt(s, n))
    requires IsRun(s, run) && forall e | e in run :: Calm(e, n)
    requires Computes(After(s, run), live, dnsProtection, servers, rs)
    ensures Protected(TunnelAt(After(s, run), n))
    ensures rs.killSwitch
    ensures forall net, k :: Verdict(net, rs, k) ==> Allowed(net, PolicyOf(After(s, run), dnsProtection), live, k)
  {
    CalmIsCareful(s, run, n);
    NeverOpens(s, run, n, live, dnsProtection, servers, rs);
  }

  lemma CalmIsCareful(s: Sys, run: seq<Event>, n: Name)
    requires Reachable(s) && s.killSwitch && Settled(TunnelAt(s, n)) && !Auto(TunnelAt(s, n).slot) && !Endangered(TunnelAt(s, n))
    requires IsRun(s, run) && forall e | e in run :: Calm(e, n)
    ensures CarefulRun(s, run, n)
  {
    hide Settled, Calm, CarefulRun, IsRun;
    ReachableIsSound(s);
    SettledIsSafe(s, n);
    SecureRunIsCareful(s, run, n);
  }

  // ---- the end of a process that is up ----

  /** The process is in ActiveRemotes, and nobody has begun its cleanup. */
  predicate Running(x: Tunnel) {
    x.entry.Some? && InActiveRemotes(x.entry.value) && x.entry.value.launcher.None? && x.entry.value.leaving.None?
  }

  /** Its callbacks run. */
  lemma {:induction false} Drains(s: Sys, n: Name) returns (z: Sys)
    requires Station(s, n) && Running(TunnelAt(s, n))
    ensures Station(z, n) && Running(TunnelAt(z, n)) && TunnelAt(z, n).entry.value.callbacks == 0 && z.mu == s.mu
    ensures var x, y := TunnelAt(s, n), TunnelAt(z, n);
      y.threads == x.threads && y.slot.auto == x.slot.auto && y.entry.value.toldToExit == x.entry.value.toldToExit
    ensures Falls(z, n) ==> Falls(s, n)
    decreases TunnelAt(s, n).entry.value.callbacks
  {
    hide Station, Falls;
    if TunnelAt(s, n).entry.value.callbacks == 0 {
      z := s;
    } else {
      var s1 := OvpnOnward(s, n, 0, ActiveCallback);
      z := Drains(s1, n);
    }
  }

  /** The death of the process has been announced; thread w is removing its entry. */
  ghost predicate DeathAt(s: Sys, n: Name, w: nat, stage: TearStage) {
    && Station(s, n) && w in TunnelAt(s, n).threads && TunnelAt(s, n).threads[w] == Teardown(true, stage)
    && (TunnelAt(s, n).entry.Some? ==> TunnelAt(s, n).entry.value.leaving == Some(w))
    && (TunnelAt(s, n).entry.Some? <==> stage.Decided? || stage.Dying?)
  }

  lemma Begins(s: Sys, n: Name) returns (z: Sys, w: nat)
    requires Station(s, n) && Running(TunnelAt(s, n)) && TunnelAt(s, n).entry.value.callbacks == 0 && !TunnelAt(s, n).entry.value.toldToExit
    ensures DeathAt(z, n, w, Decided) && z.mu == s.mu && w !in TunnelAt(s, n).threads
    ensures TunnelAt(z, n).threads == TunnelAt(s, n).threads[w := Teardown(true, Decided)] && TunnelAt(z, n).slot == TunnelAt(s, n).slot
    ensures Falls(z, n) ==> Falls(s, n)
  {
    w := s.nextId;
    assert w !in TunnelAt(s, n).threads by {
      ReachableIsSound(s);
      assert TidyAt(s, n) && LockFacts(s.mu, s.nextId, TunnelAt(s, n), w);
    }
    z := TearOnward(s, n, w, BeginTear);
  }

  lemma Announces(s: Sys, n: Name, w: nat) returns (z: Sys)
    requires DeathAt(s, n, w, Decided)
    ensures DeathAt(z, n, w, Dying) && z.mu == s.mu && !Up(TunnelAt(z, n))
    ensures TunnelAt(z, n).threads == TunnelAt(s, n).threads[w := Teardown(true, Dying)] && TunnelAt(z, n).slot.auto == TunnelAt(s, n).slot.auto
    ensures Falls(z, n) ==> Falls(s, n)
  {
    hide Station, Falls;
    z := TearOnward(s, n, w, OnDying);
  }

  lemma UpRuns(s: Sys, n: Name)
    requires Station(s, n) && Up(TunnelAt(s, n))
    ensures var e := TunnelAt(s, n).entry.value;
      if e.leaving.None? then Running(TunnelAt(s, n)) && !e.toldToExit else DeathAt(s, n, e.leaving.value, Decided)
  {
    ReachableIsSound(s);
    assert TidyAt(s, n) && EntryFacts(TunnelAt(s, n), 0);
  }

  /** A tunnel that is up dies; its other threads stay as they are. */
  lemma Dies(s: Sys, n: Name) returns (z: Sys, w: nat)
    requires Station(s, n) && Up(TunnelAt(s, n))
    ensures DeathAt(z, n, w, Dying) && z.mu == s.mu && !Up(TunnelAt(z, n)) && TunnelAt(z, n).slot.auto == TunnelAt(s, n).slot.auto
    ensures forall u | u in TunnelAt(s, n).threads && u != w :: u in TunnelAt(z, n).threads && TunnelAt(z, n).threads[u] == TunnelAt(s, n).threads[u]
    ensures w in TunnelAt(s, n).threads ==> TunnelAt(s, n).threads[w] == Teardown(true, Decided)
    ensures Falls(z, n) ==> Falls(s, n)
  {
    hide Station, Falls;
    UpRuns(s, n);
    if TunnelAt(s, n).entry.value.leaving.None? {
      var s1 := Drains(s, n);
      var s2, v := Begins(s1, n);
      w := v;
      z := Announces(s2, n, w);
    } else {
      w := TunnelAt(s, n).entry.value.leaving.value;
      z := Announces(s, n, w);
    }
  }

  // ---- without auto-reconnect ----

  lemma WaitingFalls(s: Sys, n: Name, u: nat)
    requires Station(s, n) && !Auto(TunnelAt(s, n).slot) && Endangers(TunnelAt(s, n), u)
    requires TunnelAt(s, n).threads[u].Retrier? && TunnelAt(s, n).threads[u].retryAt.Waiting?
    ensures Falls(s, n)
  {
    hide Station, Falls;
    ExposingFalls(s, n, u, Retry(Timeout));
  }

  lemma SuspendFalls(s: Sys, n: Name, u: nat)
    requires Station(s, n) && !Auto(TunnelAt(s, n).slot) && !Up(TunnelAt(s, n)) && u in TunnelAt(s, n).threads
    requires TunnelAt(s, n).threads[u].Retrier? && (TunnelAt(s, n).threads[u].retryAt.Notified? || TunnelAt(s, n).threads[u].retryAt.Registered?)
    ensures Falls(s, n)
  {
    hide Station, Falls;
    var z := s;
    if TunnelAt(s, n).threads[u].retryAt.Notified? { z := RetryOnward(s, n, u, Register); }
    ExposingFalls(z, n, u, Retry(Hold));
  }

  lemma EngineFalls(s: Sys, n: Name, u: nat)
    requires Station(s, n) && !Auto(TunnelAt(s, n).slot) && !Up(TunnelAt(s, n)) && TunnelAt(s, n).entry.Some? && u in TunnelAt(s, n).threads
    requires TunnelAt(s, n).threads[u].WgDeath? && !TunnelAt(s, n).threads[u].deathAt.Handled?
    ensures Falls(s, n)
  {
    hide Station, Falls;
    var z := s;
    if TunnelAt(s, n).threads[u].deathAt.Down? { z := WgOnward(s, n, u, WgEvent.Vanish); }
    ExposingFalls(z, n, u, Wg(ForgetWg));
  }

  lemma LateForgetFalls(s: Sys, n: Name, u: nat)
    requires Station(s, n) && !Auto(TunnelAt(s, n).slot) && Endangers(TunnelAt(s, n), u) && TunnelAt(s, n).threads[u].Teardown?
    ensures Falls(s, n)
  {
    hide Station, Falls;
    var z := s;
    if TunnelAt(z, n).threads[u].tearAt.Removed? { z := TearOnward(z, n, u, Report); }
    if TunnelAt(z, n).threads[u].tearAt.Reported? { z := TearOnward(z, n, u, OnDied); }
    ExposingFalls(z, n, u, Tear(Forget));
  }

  lemma EndangeredFalls(s: Sys, n: Name, u: nat)
    requires Station(s, n) && Up(TunnelAt(s, n)) && !Auto(TunnelAt(s, n).slot) && Endangers(TunnelAt(s, n), u)
    ensures Falls(s, n)
  {
    hide Station, Falls, Up;
    var th := TunnelAt(s, n).threads[u];
    if th.Teardown? {
      LateForgetFalls(s, n, u);
    } else if th.Retrier? && th.retryAt.Waiting? {
      WaitingFalls(s, n, u);
    } else {
      var z, w := Dies(s, n);
      if th.Retrier? { SuspendFalls(z, n, u); } else { EngineFalls(z, n, u); }
    }
  }

  // ---- with auto-reconnect ----

  /** A process that was told to exit runs on. */
  predicate Lingers(x: Tunnel) {
    x.entry.Some? && x.entry.value.toldToExit && x.entry.value.launcher.None? && x.entry.value.leaving.None?
  }

  /** A sequence that holds ends without giving its hold back yet. */
  lemma LoopEnds(s: Sys, n: Name, u: nat) returns (z: Sys)
    requires Station(s, n) && HoldsAt(TunnelAt(s, n), u) && !TunnelAt(s, n).threads[u].retryAt.Replacing?
    ensures Station(z, n) && HoldsAt(TunnelAt(z, n), u) && TunnelAt(z, n).threads[u].retryAt.Ending?
    ensures TunnelAt(z, n).slot == TunnelAt(s, n).slot && TunnelAt(z, n).entry == TunnelAt(s, n).entry
    ensures Falls(z, n) ==> Falls(s, n)
  {
    hide Station, Falls;
    z := s;
    if !TunnelAt(z, n).threads[u].retryAt.Ending? { z := RetryOnward(z, n, u, Panic); }
  }

  lemma GivesUp(s: Sys, n: Name, u: nat) returns (z: Sys)
    requires Station(s, n) && HoldsAt(TunnelAt(s, n), u)
    ensures Station(z, n) && HoldsAt(TunnelAt(z, n), u) && TunnelAt(z, n).threads[u].retryAt.Ending?
    ensures TunnelAt(z, n).slot == TunnelAt(s, n).slot && TunnelAt(z, n).entry == TunnelAt(s, n).entry
    ensures Falls(z, n) ==> Falls(s, n)
  {
    hide Station, Falls;
    z := s;
    if TunnelAt(z, n).threads[u].retryAt.Replacing? { z := RetryOnward(z, n, u, Replace); }
    z := LoopEnds(z, n, u);
  }

  lemma AHolder(s: Sys, n: Name) returns (u: nat)
    requires Reachable(s) && TunnelAt(s, n).slot.held > 0
    ensures HoldsAt(TunnelAt(s, n), u)
  {
    hide Reachable;
    EveryHoldHasASequence(s, n);
    assert Holders(TunnelAt(s, n)) != {};
    u :| u in Holders(TunnelAt(s, n));
  }

  /** All sequences give their holds back, and the process goes without a notice. */
  lemma {:induction false} LingeringFalls(s: Sys, n: Name)
    requires Station(s, n) && Auto(TunnelAt(s, n).slot) && Lingers(TunnelAt(s, n)) && TunnelAt(s, n).slot.held > 0
    ensures Falls(s, n)
    decreases TunnelAt(s, n).slot.held
  {
    var u := AHolder(s, n);
    hide Station, Falls;
    var s1 := GivesUp(s, n, u);
    if TunnelAt(s1, n).slot.held == 1 {
      ExposingFalls(s1, n, u, Retry(Release));
    } else {
      var s2 := RetryOnward(s1, n, u, Release);
      LingeringFalls(s2, n);
    }
  }

  /** Sequence w is past its suspend. */
  ghost predicate SequenceAt(s: Sys, n: Name, w: nat, stage: RetryStage) {
    && Station(s, n) && Auto(TunnelAt(s, n).slot) && TunnelAt(s, n).slot.held > 0 && w in TunnelAt(s, n).threads
    && TunnelAt(s, n).threads[w] == Retrier(stage, false, 1)
  }

  /** The process that it started, or found, times out. */
  lemma TimeoutFalls(s: Sys, n: Name, w: nat)
    requires SequenceAt(s, n, w, Waiting) && TunnelAt(s, n).entry.Some? && TunnelAt(s, n).entry.value.launcher.None? &&
             TunnelAt(s, n).entry.value.leaving.None?
    ensures Falls(s, n)
  {
    hide Station, Falls;
    var z := RetryOnward(s, n, w, Timeout);
    LingeringFalls(z, n);
  }

  /** Its process is launched. */
  lemma ConnectingFalls(s: Sys, n: Name, w: nat)
    requires SequenceAt(s, n, w, Connecting(OpenVPN)) && TunnelAt(s, n).entry == Some(Reserved(w))
    ensures Falls(s, n)
  {
    hide Station, Falls;
    var z := CallOnward(s, n, w, Finish(true, "192.0.2.1", Pass("", "", [])));
    TimeoutFalls(z, n, w);
  }

  lemma CallingFalls(s: Sys, n: Name, w: nat)
    requires SequenceAt(s, n, w, Calling(OpenVPN)) && TunnelAt(s, n).entry.None?
    ensures Falls(s, n)
  {
    hide Station, Falls;
    var z := CallOnward(s, n, w, Begin(false));
    ConnectingFalls(z, n, w);
  }

  /** It calls the OpenVPN manager, for nothing else is wanted. */
  lemma CheckingFalls(s: Sys, n: Name, w: nat)
    requires SequenceAt(s, n, w, Checking) && TunnelAt(s, n).entry.None?
    ensures Falls(s, n)
  {
    assert OvpnOnly(TunnelAt(s, n));
    hide Station, Falls;
    var z := RetryOnward(s, n, w, Check);
    CallingFalls(z, n, w);
  }

  lemma AttemptingFalls(s: Sys, n: Name, w: nat)
    requires SequenceAt(s, n, w, Attempting) && TunnelAt(s, n).entry.None? && s.mu.None?
    ensures Falls(s, n)
  {
    hide Station, Falls;
    var z := RetryOnward(s, n, w, Enter);
    CheckingFalls(z, n, w);
  }

  lemma BackoffFalls(s: Sys, n: Name, w: nat)
    requires SequenceAt(s, n, w, Backoff) && TunnelAt(s, n).entry.None? && s.mu.None?
    ensures Falls(s, n)
  {
    assert OvpnOnly(TunnelAt(s, n));
    hide Station, Falls;
    var z := RetryOnward(s, n, w, Fire);
    AttemptingFalls(z, n, w);
  }

  /** A sequence that suspends holds, and nothing has cancelled it. */
  lemma Suspends(s: Sys, n: Name, w: nat) returns (z: Sys)
    requires Station(s, n) && Auto(TunnelAt(s, n).slot)
    requires w in TunnelAt(s, n).threads && TunnelAt(s, n).threads[w] == Retrier(Notified, false, 0)
    ensures Station(z, n) && Auto(TunnelAt(z, n).slot) && z.mu == s.mu && TunnelAt(z, n).entry == TunnelAt(s, n).entry
    ensures var y := TunnelAt(z, n);
      && y.slot.held > 0 && w in y.threads && y.threads[w].Retrier? && y.threads[w].retryAt.Replacing?
      && !y.threads[w].cancelled && y.threads[w].attempt == 0
    ensures Falls(z, n) ==> Falls(s, n)
  {
    hide Station, Falls;
    var s1 := RetryOnward(s, n, w, Register);
    z := RetryOnward(s1, n, w, Hold);
  }

  lemma NewSequenceFalls(s: Sys, n: Name, w: nat)
    requires Station(s, n) && Auto(TunnelAt(s, n).slot) && s.mu.None? && TunnelAt(s, n).entry.None?
    requires w in TunnelAt(s, n).threads && TunnelAt(s, n).threads[w] == Retrier(Notified, false, 0)
    ensures Falls(s, n)
  {
    hide Station, Falls;
    var s1 := Suspends(s, n, w);
    var z := RetryOnward(s1, n, w, Replace);
    BackoffFalls(z, n, w);
  }

  /** The entry goes. */
  lemma Vanishes(s: Sys, n: Name, w: nat) returns (z: Sys)
    requires DeathAt(s, n, w, Dying) && Auto(TunnelAt(s, n).slot)
    ensures DeathAt(z, n, w, TearStage.Reported) && Auto(TunnelAt(z, n).slot) && z.mu == s.mu
    ensures Falls(z, n) ==> Falls(s, n)
  {
    hide Station, Falls;
    var s1 := TearOnward(s, n, w, Remove);
    z := TearOnward(s1, n, w, Report);
  }

  /** The death is reported. */
  lemma DeathIsReported(s: Sys, n: Name, w: nat) returns (z: Sys)
    requires DeathAt(s, n, w, Dying) && Auto(TunnelAt(s, n).slot)
    ensures DeathAt(z, n, w, Undying) && Auto(TunnelAt(z, n).slot) && z.mu == s.mu
    ensures Falls(z, n) ==> Falls(s, n)
  {
    hide Station, Falls;
    var s1 := Vanishes(s, n, w);
    z := TearOnward(s1, n, w, OnDied);
  }

  /** And handed to the reconnect monitor. */
  lemma DeathIsNotified(s: Sys, n: Name, w: nat) returns (z: Sys)
    requires DeathAt(s, n, w, Undying) && Auto(TunnelAt(s, n).slot)
    ensures Station(z, n) && Auto(TunnelAt(z, n).slot) && z.mu == s.mu && TunnelAt(z, n).entry.None?
    ensures w in TunnelAt(z, n).threads && TunnelAt(z, n).threads[w] == Retrier(Notified, false, 0)
    ensures Falls(z, n) ==> Falls(s, n)
  {
    hide Station, Falls;
    var s1 := TearOnward(s, n, w, Forget);
    z := TearOnward(s1, n, w, NotifyDeath);
  }

  lemma AutoFalls(s: Sys, n: Name)
    requires Station(s, n) && Up(TunnelAt(s, n)) && Auto(TunnelAt(s, n).slot) && s.mu.None?
    ensures Falls(s, n)
  {
    hide Station, Falls, Up;
    var s1, w := Dies(s, n);
    var s2 := DeathIsReported(s1, n, w);
    var z := DeathIsNotified(s2, n, w);
    NewSequenceFalls(z, n, w);
  }

  // ---- exactly ----

  /**
   * A settled auto-reconnect tunnel falls once connectMu is free: it dies, its next
   * attempt times out and tells the new process to exit, the sequences give their
   * holds back, and the process ends without a notice.
   */
  lemma SettledFalls(s: Sys, n: Name)
    requires Reachable(s) && s.killSwitch && Settled(TunnelAt(s, n)) && Auto(TunnelAt(s, n).slot) && s.mu.None?
    ensures Falls(s, n)
  {
    SettledIsSafe(s, n);
    AutoFalls(s, n);
  }

  /**
   * So does a settled tunnel without auto-reconnect when a sequence of an earlier
   * connect has still to suspend: it takes over the block and leaves none.
   */
  lemma LeftOverSequenceFalls(s: Sys, n: Name, u: nat)
    requires Reachable(s) && s.killSwitch && Settled(TunnelAt(s, n)) && !Auto(TunnelAt(s, n).slot)
    requires u in TunnelAt(s, n).threads && TunnelAt(s, n).threads[u].Retrier?
    requires TunnelAt(s, n).threads[u].retryAt.Notified? || TunnelAt(s, n).threads[u].retryAt.Registered?
    ensures Falls(s, n)
  {
    SettledIsSafe(s, n);
    EndangeredFalls(s, n, u);
  }

  /**
   * Which settled tunnels some run without a user action leaves unprotected: all that
   * reconnect, as soon as connectMu is free for it, and of the others those that
   * something of their earlier life endangers.
   */
  lemma FallsExactly(s: Sys, n: Name)
    requires Reachable(s) && s.killSwitch && Settled(TunnelAt(s, n)) && (s.mu.None? || !Auto(TunnelAt(s, n).slot))
    ensures Falls(s, n) <==> Auto(TunnelAt(s, n).slot) || Endangered(TunnelAt(s, n))
  {
    SettledIsSafe(s, n);
    if Auto(TunnelAt(s, n).slot) {
      SettledFalls(s, n);
    } else if Endangered(TunnelAt(s, n)) {
      var u :| Endangers(TunnelAt(s, n), u);
      EndangeredFalls(s, n, u);
    } else {
      forall run ensures !FallsBy(s, n, run) { NeverFallsBy(s, n, run); }
    }
  }

  lemma NeverFallsBy(s: Sys, n: Name, run: seq<Event>)
    requires Reachable(s) && s.killSwitch && Settled(TunnelAt(s, n)) && !Auto(TunnelAt(s, n).slot) && !Endangered(TunnelAt(s, n))
    ensures !FallsBy(s, n, run)
  {
    if IsRun(s, run) && forall e | e in run :: Calm(e, n) {
      hide Settled, Endangered, Calm, CarefulRun;
      CalmIsCareful(s, run, n);
      ReachableIsSound(s);
      SettledIsSafe(s, n);
      RunSafe(s, run, n);
      SafeProtects(TunnelAt(After(s, run), n));
    }
  }
}
