// What every reachable state of the helper satisfies: who may hold connectMu,
// what an OpenVPN entry can look like, and which threads go with it.
module HelperInvariants {
  import opened Common
  import opened Rules
  import opened KillSwitch
  import opened HelperRuns
  import opened Frames
  import opened Steps

  /** The thread is starting the OpenVPN process that its name is reserved for. */
  predicate Launching(th: Thread) { InsideCall(th) && CallProtocol(th) == OpenVPN }

  /** The thread is between the death decision and the removal of the entry. */
  predicate Leaving(th: Thread) { th.Teardown? && (th.tearAt.Decided? || th.tearAt.Dying?) }

  /** What an entry can look like; t is the thread cleaning it up, if any. */
  predicate EntryOk(e: Entry) {
    && (e.launcher.Some? ==> !e.active && e.leaving.None?)
    && (!e.active ==> !e.connected && e.callbacks == 0)
    && (e.leaving.Some? ==> e.callbacks == 0)
  }

  predicate SlotOk(ks: bool, x: Slot) {
    && (x.through ==> x.pending)
    && (x.blocked.Some? ==> ks)
    && (x.windows > 0 <==> x.servers.Some?)
  }

  /** Thread u against the lock, the id counter and the disconnect count. */
  predicate LockFacts(mu: Option<nat>, id: nat, x: Tunnel, u: nat) {
    u in x.threads ==>
      && u < id
      && (Locked(x.threads[u]) ==> mu == Some(u))
      && (x.threads[u].Connector? ==> x.threads[u].epoch <= x.slot.epoch)
  }

  /** Thread u against the OpenVPN entry: its launcher and its cleanup. */
  predicate EntryFacts(x: Tunnel, u: nat) {
    && (x.entry.Some? ==> EntryOk(x.entry.value))
    && (x.entry.Some? && x.entry.value.leaving == Some(u) ==> u in x.threads && Leaving(x.threads[u]))
    && (u in x.threads ==> LaunchOk(x, u, x.threads[u]) && TeardownOk(x, u, x.threads[u]))
  }

  predicate LaunchOk(x: Tunnel, u: nat, th: Thread) {
    Launching(th) ==> x.entry.Some? && x.entry.value.launcher == Some(u)
  }

  predicate TeardownOk(x: Tunnel, u: nat, th: Thread) {
    th.Teardown? ==>
      && (Leaving(th) ==> x.entry.Some? && x.entry.value.leaving == Some(u) && (th.died ==> x.entry.value.active))
      && (!th.died ==> th.tearAt.Decided? || th.tearAt.Removed?)
  }

  ghost predicate Tidy(ks: bool, mu: Option<nat>, id: nat, x: Tunnel) {
    SlotOk(ks, x.slot) && (forall u :: LockFacts(mu, id, x, u)) && (forall u :: EntryFacts(x, u))
  }

  /** What every section keeps of the slot. */
  predicate Kept(ks: bool, x: Slot, y: Slot) { (SlotOk(ks, x) ==> SlotOk(ks, y)) && x.epoch <= y.epoch }

  lemma WindowsKeep(ks: bool, x: Slot, resolvers: seq<string>, answers: seq<Literal>)
    ensures Kept(ks, x, OpenWindowSlot(x, resolvers)) && Kept(ks, x, CloseWindowSlot(x))
    ensures Kept(ks, x, StoreResolvedSlot(CloseWindowSlot(x), answers))
  {}

  lemma ConnectKeeps(ks: bool, any: bool, x: Slot, th: Thread, resolved: seq<Literal>)
    requires th.Connector?
    ensures Kept(ks, x, CacheConfigSlot(x, th.proto, th.cfg, th.auto))
    ensures Kept(ks, x, LiftSlot(x, ks, any, resolved))
    ensures Kept(ks, x, UncacheConfigSlot(x, th.proto, th.prevCfg, th.prevAuto))
    ensures Kept(ks, x, RestoreBlockSlot(x, ks, th.proto))
  {}

  lemma HoldsKeep(ks: bool, x: Slot, up: bool)
    ensures Kept(ks, x, HoldSlot(x)) && Kept(ks, x, ReleaseSlot(x, ks, up)) && Kept(ks, x, DisconnectSlot(x))
  {}

  lemma DeathKeeps(ks: bool, x: Slot, proto: Protocol)
    ensures Kept(ks, x, DyingSlot(x, ks)) && Kept(ks, x, DiedSlot(x)) && Kept(ks, x, GoneSlot(x, ks))
    ensures Kept(ks, x, ForgetOrHoldSlot(x, ks, proto)) && Kept(ks, x, SettleSlot(x))
  {}

  lemma PolicyKeeps(ks: bool, x: Slot, e: PolicyEvent, listed: Option<Pass>)
    requires SlotOk(ks, x)
    ensures SlotOk(if e.SetKillSwitch? && e.loaded then e.on else ks, PolicySlot(x, e, listed))
    ensures PolicySlot(x, e, listed).epoch == x.epoch
  {}


  lemma UserSlot(c: Context, x: Tunnel, t: nat, e: ConnectEvent)
    requires ConnectEnabled(c, x, t, e)
    ensures Kept(c.killSwitch, x.slot, ConnectStep(c, x, t, e).tunnel.slot)
  {
    var th := if t in x.threads then x.threads[t] else WgDeath(Down);
    if th.Connector? {
      ConnectKeeps(c.killSwitch, c.anyBlocked, x.slot, th, if e.Lift? then e.resolved else []);
    }
    WindowsKeep(c.killSwitch, x.slot, if e.OpenWindow? then e.resolvers else [], []);
    DeathKeeps(c.killSwitch, x.slot, OpenVPN);
  }

  lemma UserLock(c: Context, x: Tunnel, t: nat, e: ConnectEvent, u: nat)
    requires ConnectEnabled(c, x, t, e)
    requires LockFacts(c.mu, c.id, x, t) && LockFacts(c.mu, c.id, x, u)
    ensures LockFacts(ConnectStep(c, x, t, e).mu, c.id + 1, ConnectStep(c, x, t, e).tunnel, u)
  {
    UserSlot(c, x, t, e);
  }

  lemma UserEntry(c: Context, x: Tunnel, t: nat, e: ConnectEvent, u: nat)
    requires ConnectEnabled(c, x, t, e)
    requires LockFacts(c.mu, c.id, x, u) && EntryFacts(x, t) && EntryFacts(x, u)
    ensures EntryFacts(ConnectStep(c, x, t, e).tunnel, u)
  {
    UserFrame(c, x, t, e, if u == t then t + 1 else u);
    UserOwn(c, x, t, e);
    hide ConnectEnabled, ConnectStep, EntryOk;
  }

  lemma CallSlot(c: Context, x: Tunnel, t: nat, e: CallEvent)
    requires CallEnabled(c, x, t, e)
    ensures Kept(c.killSwitch, x.slot, CallStep(c, x, t, e).tunnel.slot)
  {}

  lemma CallLock(c: Context, x: Tunnel, t: nat, e: CallEvent, u: nat)
    requires CallEnabled(c, x, t, e)
    requires LockFacts(c.mu, c.id, x, t) && LockFacts(c.mu, c.id, x, u)
    ensures LockFacts(CallStep(c, x, t, e).mu, c.id + 1, CallStep(c, x, t, e).tunnel, u)
  {
    CallSlot(c, x, t, e);
  }

  lemma BeginEntry(c: Context, x: Tunnel, t: nat, refused: bool, u: nat)
    requires CallEnabled(c, x, t, Begin(refused))
    requires EntryFacts(x, t) && EntryFacts(x, u)
    ensures EntryFacts(CallStep(c, x, t, Begin(refused)).tunnel, u)
  {}

  lemma FinishEntry(c: Context, x: Tunnel, t: nat, e: CallEvent, u: nat)
    requires e.Finish? && CallEnabled(c, x, t, e)
    requires EntryFacts(x, t) && EntryFacts(x, u)
    ensures EntryFacts(CallStep(c, x, t, e).tunnel, u)
  {}

  lemma CallEntry(c: Context, x: Tunnel, t: nat, e: CallEvent, u: nat)
    requires CallEnabled(c, x, t, e)
    requires LockFacts(c.mu, c.id, x, u) && EntryFacts(x, t) && EntryFacts(x, u)
    ensures EntryFacts(CallStep(c, x, t, e).tunnel, u)
  {
    hide CallEnabled, CallStep, EntryFacts, LockFacts;
    match e
    case Begin(refused) => BeginEntry(c, x, t, refused, u);
    case Finish(_, _, _) => FinishEntry(c, x, t, e, u);
  }

  lemma StopSlot(c: Context, x: Tunnel, t: nat, e: DisconnectEvent)
    requires DisconnectEnabled(c, x, t, e)
    ensures Kept(c.killSwitch, x.slot, DisconnectStep(c, x, t, e).tunnel.slot)
  {
    HoldsKeep(c.killSwitch, x.slot, false);
  }

  lemma StopLock(c: Context, x: Tunnel, t: nat, e: DisconnectEvent, u: nat)
    requires DisconnectEnabled(c, x, t, e)
    requires LockFacts(c.mu, c.id, x, t) && LockFacts(c.mu, c.id, x, u)
    ensures LockFacts(DisconnectStep(c, x, t, e).mu, c.id + 1, DisconnectStep(c, x, t, e).tunnel, u)
  {
    StopSlot(c, x, t, e);
  }

  lemma StopEntry(c: Context, x: Tunnel, t: nat, e: DisconnectEvent, u: nat)
    requires DisconnectEnabled(c, x, t, e)
    requires LockFacts(c.mu, c.id, x, u) && EntryFacts(x, t) && EntryFacts(x, u)
    ensures EntryFacts(DisconnectStep(c, x, t, e).tunnel, u)
  {
    StopThreads(c, x, t, e, u);
    StopEntryIs(c, x, t, e);
    hide DisconnectEnabled, DisconnectStep;
  }

  /** A disconnect at most tells the process to exit. */
  lemma StopEntryIs(c: Context, x: Tunnel, t: nat, e: DisconnectEvent)
    requires DisconnectEnabled(c, x, t, e)
    ensures var y := DisconnectStep(c, x, t, e).tunnel;
      y.entry == x.entry || (x.entry.Some? && y.entry == Some(x.entry.value.(toldToExit := true)))
  {}

  /** Its own thread is a disconnect; another is at most cancelled. */
  lemma StopThreads(c: Context, x: Tunnel, t: nat, e: DisconnectEvent, u: nat)
    requires DisconnectEnabled(c, x, t, e)
    ensures var y := DisconnectStep(c, x, t, e).tunnel;
      if u != t then AtMostCancelled(x, y, u)
      else (t in y.threads ==> y.threads[t].Disconnector?) && (t == c.id || (t in x.threads && x.threads[t].Disconnector?))
  {}

  lemma RetrySlot(c: Context, x: Tunnel, t: nat, e: RetryEvent)
    requires RetryEnabled(c, x, t, e)
    ensures Kept(c.killSwitch, x.slot, RetryStep(c, x, t, e).tunnel.slot)
  {
    HoldsKeep(c.killSwitch, x.slot, IsUp(x));
    WindowsKeep(c.killSwitch, x.slot, if e.OpenRetryWindow? then e.resolvers else [], if e.CloseRetryWindow? then e.answers else []);
  }

  lemma OwnLock(c: Context, x: Tunnel, t: nat, e: RetryEvent)
    requires RetryEnabled(c, x, t, e) && LockFacts(c.mu, c.id, x, t)
    ensures var o := RetryStep(c, x, t, e);
      && (o.mu == c.mu || c.mu.None? || c.mu == Some(t))
      && (t in o.tunnel.threads ==> o.tunnel.threads[t].Retrier? && (Locked(o.tunnel.threads[t]) ==> o.mu == Some(t)))
  {}

  lemma RetryLock(c: Context, x: Tunnel, t: nat, e: RetryEvent, u: nat)
    requires RetryEnabled(c, x, t, e)
    requires LockFacts(c.mu, c.id, x, t) && LockFacts(c.mu, c.id, x, u)
    ensures LockFacts(RetryStep(c, x, t, e).mu, c.id + 1, RetryStep(c, x, t, e).tunnel, u)
  {
    RetryRequest(c, x, t, e);
    OwnLock(c, x, t, e);
    RetryOwn(c, x, t, e);
    if u != t { RetryFrame(c, x, t, e, u); }
    hide RetryEnabled, RetryStep;
  }

  lemma RetryEntry(c: Context, x: Tunnel, t: nat, e: RetryEvent, u: nat)
    requires RetryEnabled(c, x, t, e)
    requires LockFacts(c.mu, c.id, x, u) && EntryFacts(x, t) && EntryFacts(x, u)
    ensures EntryFacts(RetryStep(c, x, t, e).tunnel, u)
  {
    RetryManagers(c, x, t, e);
    RetryOwn(c, x, t, e);
    if u != t { RetryFrame(c, x, t, e, u); }
    hide RetryEnabled, RetryStep;
  }

  lemma OvpnSlot(c: Context, x: Tunnel, t: nat, e: OvpnEvent)
    requires OvpnEnabled(x, e)
    ensures Kept(c.killSwitch, x.slot, OvpnStep(x, e).slot)
  {
    DeathKeeps(c.killSwitch, x.slot, OpenVPN);
  }

  lemma OvpnLock(c: Context, x: Tunnel, t: nat, e: OvpnEvent, u: nat)
    requires OvpnEnabled(x, e)
    requires LockFacts(c.mu, c.id, x, t) && LockFacts(c.mu, c.id, x, u)
    ensures LockFacts(c.mu, c.id + 1, OvpnStep(x, e), u)
  {
    OvpnSlot(c, x, t, e);
  }

  lemma OvpnEntry(c: Context, x: Tunnel, t: nat, e: OvpnEvent, u: nat)
    requires OvpnEnabled(x, e)
    requires LockFacts(c.mu, c.id, x, u) && EntryFacts(x, t) && EntryFacts(x, u)
    ensures EntryFacts(OvpnStep(x, e), u)
  {}

  lemma TearSlot(c: Context, x: Tunnel, t: nat, e: TearEvent)
    requires TearEnabled(c, x, t, e)
    ensures Kept(c.killSwitch, x.slot, TearStep(c, x, t, e).slot)
  {
    DeathKeeps(c.killSwitch, x.slot, OpenVPN);
  }

  lemma TearLock(c: Context, x: Tunnel, t: nat, e: TearEvent, u: nat)
    requires TearEnabled(c, x, t, e)
    requires LockFacts(c.mu, c.id, x, t) && LockFacts(c.mu, c.id, x, u)
    ensures LockFacts(c.mu, c.id + 1, TearStep(c, x, t, e), u)
  {
    TearSlot(c, x, t, e);
  }

  lemma TearEntry(c: Context, x: Tunnel, t: nat, e: TearEvent, u: nat)
    requires TearEnabled(c, x, t, e)
    requires LockFacts(c.mu, c.id, x, u) && EntryFacts(x, t) && EntryFacts(x, u)
    ensures EntryFacts(TearStep(c, x, t, e), u)
  {}

  lemma WgSlot(c: Context, x: Tunnel, t: nat, e: WgEvent)
    requires WgEnabled(c, x, t, e)
    ensures Kept(c.killSwitch, x.slot, WgStep(c, x, t, e).slot)
  {
    DeathKeeps(c.killSwitch, x.slot, WireGuard);
  }

  lemma WgLock(c: Context, x: Tunnel, t: nat, e: WgEvent, u: nat)
    requires WgEnabled(c, x, t, e)
    requires LockFacts(c.mu, c.id, x, t) && LockFacts(c.mu, c.id, x, u)
    ensures LockFacts(c.mu, c.id + 1, WgStep(c, x, t, e), u)
  {
    WgSlot(c, x, t, e);
  }

  lemma WgEntry(c: Context, x: Tunnel, t: nat, e: WgEvent, u: nat)
    requires WgEnabled(c, x, t, e)
    requires LockFacts(c.mu, c.id, x, u) && EntryFacts(x, t) && EntryFacts(x, u)
    ensures EntryFacts(WgStep(c, x, t, e), u)
  {}

  // ---- one step of one tunnel ----

  lemma StepSlot(c: Context, x: Tunnel, t: nat, step: Step)
    requires StepEnabled(c, x, t, step)
    ensures Kept(c.killSwitch, x.slot, TunnelStep(c, x, t, step).tunnel.slot)
  {
    match step
    case User(e) => UserSlot(c, x, t, e);
    case Call(e) => CallSlot(c, x, t, e);
    case UserStop(e) => StopSlot(c, x, t, e);
    case Retry(e) => RetrySlot(c, x, t, e);
    case Ovpn(e) => OvpnSlot(c, x, t, e);
    case Tear(e) => TearSlot(c, x, t, e);
    case Wg(e) => WgSlot(c, x, t, e);
  }

  lemma StepLock(c: Context, x: Tunnel, t: nat, step: Step, u: nat)
    requires StepEnabled(c, x, t, step)
    requires LockFacts(c.mu, c.id, x, t) && LockFacts(c.mu, c.id, x, u)
    ensures var o := TunnelStep(c, x, t, step); LockFacts(o.mu, c.id + 1, o.tunnel, u)
  {
    match step
    case User(e) => UserLock(c, x, t, e, u);
    case Call(e) => CallLock(c, x, t, e, u);
    case UserStop(e) => StopLock(c, x, t, e, u);
    case Retry(e) => RetryLock(c, x, t, e, u);
    case Ovpn(e) => OvpnLock(c, x, t, e, u);
    case Tear(e) => TearLock(c, x, t, e, u);
    case Wg(e) => WgLock(c, x, t, e, u);
  }

  lemma StepEntry(c: Context, x: Tunnel, t: nat, step: Step, u: nat)
    requires StepEnabled(c, x, t, step)
    requires LockFacts(c.mu, c.id, x, u) && EntryFacts(x, t) && EntryFacts(x, u)
    ensures EntryFacts(TunnelStep(c, x, t, step).tunnel, u)
  {
    match step
    case User(e) => UserEntry(c, x, t, e, u);
    case Call(e) => CallEntry(c, x, t, e, u);
    case UserStop(e) => StopEntry(c, x, t, e, u);
    case Retry(e) => RetryEntry(c, x, t, e, u);
    case Ovpn(e) => OvpnEntry(c, x, t, e, u);
    case Tear(e) => TearEntry(c, x, t, e, u);
    case Wg(e) => WgEntry(c, x, t, e, u);
  }

  /** Only the owner of connectMu, or a thread that finds it free, changes it. */
  lemma StepMu(c: Context, x: Tunnel, t: nat, step: Step)
    requires StepEnabled(c, x, t, step) && LockFacts(c.mu, c.id, x, t)
    ensures var mu := TunnelStep(c, x, t, step).mu;
      mu == c.mu || c.mu.None? || (t in x.threads && c.mu == Some(t))
  {}

  lemma StepThreads(c: Context, x: Tunnel, t: nat, step: Step, u: nat)
    requires StepEnabled(c, x, t, step) && u in TunnelStep(c, x, t, step).tunnel.threads
    ensures u in x.threads || u == c.id
  {}

  lemma StepTidy(c: Context, x: Tunnel, t: nat, step: Step)
    requires Tidy(c.killSwitch, c.mu, c.id, x) && StepEnabled(c, x, t, step)
    ensures var o := TunnelStep(c, x, t, step); Tidy(c.killSwitch, o.mu, c.id + 1, o.tunnel)
  {
    var o, id := TunnelStep(c, x, t, step), c.id + 1;
    StepSlot(c, x, t, step);
    forall u ensures LockFacts(o.mu, id, o.tunnel, u) { StepLock(c, x, t, step, u); }
    forall u ensures EntryFacts(o.tunnel, u) { StepEntry(c, x, t, step, u); }
  }

  // ---- the whole helper ----

  /** Thread ids belong to one tunnel each. */
  ghost predicate Owners(s: Sys) {
    forall n, m, t | t in TunnelAt(s, n).threads && t in TunnelAt(s, m).threads :: n == m
  }

  ghost predicate TidyAt(s: Sys, n: Name) { Tidy(s.killSwitch, s.mu, s.nextId, TunnelAt(s, n)) }

  ghost predicate Sound(s: Sys) { Owners(s) && forall n :: TidyAt(s, n) }

  lemma InitSound(maxAttempts: nat)
    ensures Sound(Init(maxAttempts))
  {
    forall n ensures TidyAt(Init(maxAttempts), n) {}
  }

  /** A step of n leaves every other tunnel as it was, and tidy. */
  lemma OtherTidy(s: Sys, n: Name, t: nat, step: Step, m: Name)
    requires Sound(s) && Enabled(s, On(n, t, step)) && m != n
    ensures TunnelAt(Next(s, On(n, t, step)), m) == TunnelAt(s, m)
    ensures TidyAt(Next(s, On(n, t, step)), m)
  {
    var c, x, y := ContextOf(s), TunnelAt(s, n), TunnelAt(s, m);
    var o, id := TunnelStep(c, x, t, step), c.id + 1;
    assert TidyAt(s, n) && TidyAt(s, m) && LockFacts(c.mu, c.id, x, t);
    StepMu(c, x, t, step);
    Goes(s, n, t, step);
    assert s.mu != o.mu && s.mu.Some? ==> s.mu.value !in y.threads;
    hide StepEnabled, TunnelStep, Next, EntryFacts, SlotOk, Sound;
    forall u ensures LockFacts(o.mu, id, y, u) { assert LockFacts(c.mu, c.id, y, u); }
  }

  /** The threads after a step of n are those before it, and perhaps a new one of n. */
  lemma ThreadsAfter(s: Sys, n: Name, t: nat, step: Step, m: Name, u: nat)
    requires Enabled(s, On(n, t, step)) && u in TunnelAt(Next(s, On(n, t, step)), m).threads
    ensures u in TunnelAt(s, m).threads || (m == n && u == s.nextId)
  {
    Goes(s, n, t, step);
    hide Next, StepEnabled, TunnelStep;
    if m == n { StepThreads(ContextOf(s), TunnelAt(s, n), t, step, u); }
  }

  lemma OwnersStep(s: Sys, n: Name, t: nat, step: Step)
    requires Sound(s) && Enabled(s, On(n, t, step))
    ensures Owners(Next(s, On(n, t, step)))
  {
    var z := Next(s, On(n, t, step));
    hide Next, Enabled, EntryFacts, SlotOk;
    forall m, k, u | u in TunnelAt(z, m).threads && u in TunnelAt(z, k).threads ensures m == k {
      ThreadsAfter(s, n, t, step, m, u);
      ThreadsAfter(s, n, t, step, k, u);
      assert TidyAt(s, m) && TidyAt(s, k);
      assert LockFacts(s.mu, s.nextId, TunnelAt(s, m), u) && LockFacts(s.mu, s.nextId, TunnelAt(s, k), u);
    }
  }

  lemma PolicySound(s: Sys, e: PolicyEvent)
    requires Sound(s) && Enabled(s, OnPolicy(e))
    ensures Sound(PolicyStep(s, e))
  {
    var z := PolicyStep(s, e);
    forall n ensures TidyAt(z, n) && TunnelAt(z, n).threads == TunnelAt(s, n).threads {
      var x, y := TunnelAt(s, n), TunnelAt(z, n);
      assert TidyAt(s, n);
      PolicyFrame(s, e, n);
      PolicyKeeps(s.killSwitch, x.slot, e, LiveAt(e.live, n));
      forall u ensures LockFacts(z.mu, z.nextId, y, u) { assert LockFacts(s.mu, s.nextId, x, u); }
      forall u ensures EntryFacts(y, u) { assert EntryFacts(x, u); }
    }
  }

  lemma OwnTidy(s: Sys, n: Name, t: nat, step: Step)
    requires Sound(s) && Enabled(s, On(n, t, step))
    ensures TidyAt(Next(s, On(n, t, step)), n)
  {
    assert TidyAt(s, n);
    Goes(s, n, t, step);
    StepTidy(ContextOf(s), TunnelAt(s, n), t, step);
    hide Next, StepEnabled, TunnelStep, Tidy;
  }

  lemma SoundStep(s: Sys, e: Event)
    requires Sound(s) && Enabled(s, e)
    ensures Sound(Next(s, e))
  {
    match e
    case OnPolicy(change) => PolicySound(s, change);
    case On(n, t, step) => SoundTunnelStep(s, n, t, step);
  }

  lemma SoundTunnelStep(s: Sys, n: Name, t: nat, step: Step)
    requires Sound(s) && Enabled(s, On(n, t, step))
    ensures Sound(Next(s, On(n, t, step)))
  {
    OwnersStep(s, n, t, step);
    hide Next, Enabled, TidyAt, Owners;
    forall m ensures TidyAt(Next(s, On(n, t, step)), m) {
      if m == n { OwnTidy(s, n, t, step); } else { OtherTidy(s, n, t, step, m); }
    }
  }

  /** Everything above holds in every state the helper can reach. */
  lemma {:induction false} RunSound(s: Sys, run: seq<Event>)
    requires Sound(s) && IsRun(s, run)
    ensures Sound(After(s, run))
    decreases |run|
  {
    if run != [] {
      SoundStep(s, run[0]);
      RunSound(Next(s, run[0]), run[1..]);
    }
  }

  lemma ReachableSound(maxAttempts: nat, run: seq<Event>)
    requires IsRun(Init(maxAttempts), run)
    ensures Sound(After(Init(maxAttempts), run))
  {
    InitSound(maxAttempts);
    RunSound(Init(maxAttempts), run);
  }

  // ---- reachable states ----

  ghost predicate ReachedBy(s: Sys, maxAttempts: nat, run: seq<Event>) {
    IsRun(Init(maxAttempts), run) && After(Init(maxAttempts), run) == s
  }

  /** Some run of the helper ends in s. */
  ghost predicate Reachable(s: Sys) { exists maxAttempts, run :: ReachedBy(s, maxAttempts, run) }

  lemma ReachableIsSound(s: Sys)
    requires Reachable(s)
    ensures Sound(s)
  {
    var maxAttempts, run :| ReachedBy(s, maxAttempts, run);
    ReachableSound(maxAttempts, run);
  }

  lemma {:induction false} RunGoesOn(s: Sys, run: seq<Event>, e: Event)
    requires IsRun(s, run) && Enabled(After(s, run), e)
    ensures IsRun(s, run + [e]) && After(s, run + [e]) == Next(After(s, run), e)
    decreases |run|
  {
    hide Enabled, Next;
    if run == [] {
      assert [] + [e] == [e] && [e][1..] == [];
      assert IsRun(Next(s, e), []);
    } else {
      RunGoesOn(Next(s, run[0]), run[1..], e);
      assert (run + [e])[0] == run[0] && (run + [e])[1..] == run[1..] + [e];
    }
  }

  /** What a reachable state can do next leads to a reachable state. */
  lemma ReachableNext(s: Sys, e: Event)
    requires Reachable(s) && Enabled(s, e)
    ensures Reachable(Next(s, e))
  {
    hide Enabled, Next, IsRun, After;
    var maxAttempts, run :| ReachedBy(s, maxAttempts, run);
    RunGoesOn(Init(maxAttempts), run, e);
    assert ReachedBy(Next(s, e), maxAttempts, run + [e]);
  }
}
