// Fail closed: once an OpenVPN tunnel the user wants is up under the kill
// switch, no firewall ruleset opens before the user turns something off.
module FailClosed {
  import opened Common
  import opened Rules
  import opened KillSwitch
  import opened HelperRuns
  import opened Frames
  import opened HelperInvariants
  import opened CallInvariants

  /** The supervisor has decided that this is a death and will announce it before removing the entry. */
  predicate Announced(x: Tunnel) {
    && x.entry.Some? && x.entry.value.leaving.Some?
    && var t := x.entry.value.leaving.value;
       t in x.threads && x.threads[t] == Teardown(true, Decided)
  }

  /** openvpn runs, or its launch has not failed yet. */
  predicate ComesUp(x: Tunnel) {
    && x.entry.Some?
    && (x.entry.value.launcher.None? ||
        var t := x.entry.value.launcher.value;
        t in x.threads && Launching(x.threads[t]))
  }

  /** Passed by the firewall, and if its process ends the helper is told first. */
  predicate Up(x: Tunnel) {
    && x.entry.Some? && InActiveRemotes(x.entry.value)
    && (if x.entry.value.leaving.Some? then Announced(x) else !x.entry.value.toldToExit)
  }

  /** The tunnel keeps the ruleset closed: it is live, held, pending or blocked. */
  predicate Protected(x: Tunnel) { Live(x) || x.slot.held > 0 || x.slot.pending || x.slot.blocked.Some? }

  // ---- the invariant ----

  /** No user action that changes what the helper wants of the tunnel is under way, and retries call only what it wants. */
  predicate QuietThread(th: Thread, auto: bool) {
    match th
    case Connector(_, _, _, _, stage, _, _) => stage.Arriving? || stage.ArrivingInWindow? || stage.Checked?
    case Disconnector(stage) => stage.Clearing? || stage.Finishing?
    case Retrier(stage, _, _) => (stage.Calling? || stage.Connecting?) ==> auto && stage.proto.OpenVPN?
    case Teardown(_, _) => true
    case WgDeath(_) => true
  }

  predicate QuietAt(x: Tunnel, u: nat) { u in x.threads ==> QuietThread(x.threads[u], Auto(x.slot)) }

  predicate OvpnOnly(x: Tunnel) {
    x.slot.wgConfig.None? && x.wg.None? && (Auto(x.slot) ==> x.slot.ovpnConfig.Some?)
  }

  /** CONNECTED has named a server, and a connect through another tunnel's block still has its callback to come. */
  predicate EntrySafe(x: Tunnel) {
    && (x.entry.Some? && x.entry.value.active ==> x.entry.value.remote != "")
    && (x.slot.through ==> x.entry.Some? && InActiveRemotes(x.entry.value) && x.entry.value.callbacks > 0)
  }

  /** With auto-reconnect, a process that was told to exit is held. */
  predicate Guarded(x: Tunnel) {
    x.entry.Some? && x.entry.value.toldToExit && x.entry.value.leaving.None? && ComesUp(x) ==> x.slot.held > 0
  }

  /** With auto-reconnect: up, pending, held, or down and blocked. */
  predicate AutoCovered(x: Tunnel) {
    Guarded(x) && (Up(x) || x.slot.pending || x.slot.held > 0 || (x.slot.blocked.Some? && !Live(x)))
  }

  /**
   * Without: up until its death is announced, pending until it is forgotten, blocked
   * from then on. A hold is not enough: it leaves no block behind.
   */
  predicate PlainCovered(x: Tunnel) {
    if x.entry.Some? then
      x.slot.ovpnConfig.Some? && InActiveRemotes(x.entry.value) && (Up(x) || (x.entry.value.leaving.Some? && x.slot.pending))
    else x.slot.blocked.Some? || (x.slot.pending && x.slot.ovpnConfig.Some?)
  }

  predicate Covered(x: Tunnel) { if Auto(x.slot) then AutoCovered(x) else PlainCovered(x) }

  ghost predicate Safe(x: Tunnel) {
    OvpnOnly(x) && EntrySafe(x) && Covered(x) && forall u :: QuietAt(x, u)
  }

  lemma SafeProtects(x: Tunnel)
    requires Safe(x)
    ensures Protected(x)
  {}

  // ---- what may not happen ----

  /** A user action on the tunnel, or a CONNECTED without a server. */
  predicate Disturbs(step: Step) {
    match step
    case User(connect) => connect.CacheRequest?
    case UserStop(disconnect) => disconnect.Clear?
    case Ovpn(ovpn) => ovpn.MgmtConnected? && ovpn.addr == ""
    case _ => false
  }

  /**
   * The steps that give protection away. With auto-reconnect: a retry sequence
   * times out on a process that nothing holds, or the last hold goes while the
   * process still has to obey an order to exit or has passed its death notice.
   * Without: a sequence left over from an earlier connect times out on the process,
   * or takes over the pending hold or the block of a tunnel that is not up; and a
   * death callback of an earlier process or engine forgets a tunnel that is back.
   */
  predicate Exposes(x: Tunnel, step: Step) {
    match step
    case Retry(Timeout) =>
      x.entry.Some? && x.entry.value.leaving.None? && (Auto(x.slot) ==> x.slot.held == 0 && ComesUp(x))
    case Retry(Release) =>
      Auto(x.slot) && x.entry.Some? && x.slot.held <= 1 &&
      (if x.entry.value.leaving.Some? then LiveEntry(x.entry.value) && !Announced(x) && !x.slot.pending
       else x.entry.value.toldToExit && ComesUp(x))
    case Retry(Hold) => !Auto(x.slot) && !Up(x)
    case Tear(Forget) => !Auto(x.slot) && x.entry.Some?
    case Wg(ForgetWg) => !Auto(x.slot) && x.entry.Some? && !Up(x)
    case _ => false
  }

  /** The entry's launcher and supervisor are older than the next thread. */
  predicate OldOwners(c: Context, x: Tunnel) {
    x.entry.Some? ==>
      && (x.entry.value.leaving.Some? ==> x.entry.value.leaving.value < c.id)
      && (x.entry.value.launcher.Some? && x.entry.value.launcher.value in x.threads ==> x.entry.value.launcher.value < c.id)
  }

  predicate Careful(x: Tunnel, step: Step) { !Disturbs(step) && !Exposes(x, step) }

  lemma UserQuiet(c: Context, x: Tunnel, t: nat, e: ConnectEvent, u: nat)
    requires ConnectEnabled(c, x, t, e) && !Disturbs(User(e))
    requires OvpnOnly(x) && QuietAt(x, t) && QuietAt(x, u)
    ensures var y := ConnectStep(c, x, t, e).tunnel; OvpnOnly(y) && QuietAt(y, u) && Auto(y.slot) == Auto(x.slot)
  {}

  lemma UserEntry(c: Context, x: Tunnel, t: nat, e: ConnectEvent)
    requires ConnectEnabled(c, x, t, e) && Careful(x, User(e))
    requires OvpnOnly(x) && QuietAt(x, t) && EntryFacts(x, t) && EntrySafe(x)
    ensures EntrySafe(ConnectStep(c, x, t, e).tunnel)
  {}

  /** Connects that are quiet leave the process, its threads and the holds alone. */
  lemma UserKeepsUp(c: Context, x: Tunnel, t: nat, e: ConnectEvent)
    requires ConnectEnabled(c, x, t, e) && !Disturbs(User(e)) && QuietAt(x, t) && OldOwners(c, x)
    ensures var y := ConnectStep(c, x, t, e).tunnel;
      && y.entry == x.entry && y.wg == x.wg && y.slot == x.slot.(windows := y.slot.windows, servers := y.slot.servers)
      && (Announced(x) ==> Announced(y)) && (ComesUp(y) ==> ComesUp(x)) && (Up(x) ==> Up(y))
  {
    WaitingFrame(c, x, t, e);
    UserFrame(c, x, t, e, t + 1);
    UserOwn(c, x, t, e);
    if x.entry.Some? && x.entry.value.leaving.Some? && x.entry.value.leaving.value != t {
      UserFrame(c, x, t, e, x.entry.value.leaving.value);
    }
    if x.entry.Some? && x.entry.value.launcher.Some? && x.entry.value.launcher.value != t {
      UserFrame(c, x, t, e, x.entry.value.launcher.value);
    }
    hide ConnectEnabled, ConnectStep;
  }

  lemma UserAuto(c: Context, x: Tunnel, t: nat, e: ConnectEvent)
    requires ConnectEnabled(c, x, t, e) && Careful(x, User(e)) && c.killSwitch && Auto(x.slot)
    requires OvpnOnly(x) && QuietAt(x, t) && EntryFacts(x, t) && EntrySafe(x) && OldOwners(c, x) && AutoCovered(x)
    ensures AutoCovered(ConnectStep(c, x, t, e).tunnel)
  {
    UserKeepsUp(c, x, t, e);
    hide ConnectStep, ConnectEnabled, EntrySafe, QuietAt, ComesUp, Up, EntryFacts, OldOwners;
  }

  lemma UserPlain(c: Context, x: Tunnel, t: nat, e: ConnectEvent)
    requires ConnectEnabled(c, x, t, e) && Careful(x, User(e)) && c.killSwitch && !Auto(x.slot)
    requires OvpnOnly(x) && QuietAt(x, t) && EntryFacts(x, t) && EntrySafe(x) && OldOwners(c, x) && PlainCovered(x)
    ensures PlainCovered(ConnectStep(c, x, t, e).tunnel)
  {
    UserKeepsUp(c, x, t, e);
    hide ConnectStep, ConnectEnabled, EntrySafe, QuietAt, ComesUp, Up, EntryFacts, OldOwners;
  }

  lemma CallQuiet(c: Context, x: Tunnel, t: nat, e: CallEvent, u: nat)
    requires CallEnabled(c, x, t, e) && !Disturbs(Call(e))
    requires OvpnOnly(x) && QuietAt(x, t) && QuietAt(x, u)
    ensures var y := CallStep(c, x, t, e).tunnel; OvpnOnly(y) && QuietAt(y, u) && Auto(y.slot) == Auto(x.slot)
  {}

  lemma CallEntry(c: Context, x: Tunnel, t: nat, e: CallEvent)
    requires CallEnabled(c, x, t, e) && Careful(x, Call(e))
    requires OvpnOnly(x) && QuietAt(x, t) && EntryFacts(x, t) && EntrySafe(x)
    ensures EntrySafe(CallStep(c, x, t, e).tunnel)
  {}

  lemma CallAuto(c: Context, x: Tunnel, t: nat, e: CallEvent)
    requires CallEnabled(c, x, t, e) && Careful(x, Call(e)) && c.killSwitch && Auto(x.slot)
    requires OvpnOnly(x) && QuietAt(x, t) && EntryFacts(x, t) && EntrySafe(x) && OldOwners(c, x) && AutoCovered(x)
    ensures AutoCovered(CallStep(c, x, t, e).tunnel)
  {}

  lemma StopQuiet(c: Context, x: Tunnel, t: nat, e: DisconnectEvent, u: nat)
    requires DisconnectEnabled(c, x, t, e) && !Disturbs(UserStop(e))
    requires OvpnOnly(x) && QuietAt(x, t) && QuietAt(x, u)
    ensures var y := DisconnectStep(c, x, t, e).tunnel; OvpnOnly(y) && QuietAt(y, u) && Auto(y.slot) == Auto(x.slot)
  {}

  lemma StopEntry(c: Context, x: Tunnel, t: nat, e: DisconnectEvent)
    requires DisconnectEnabled(c, x, t, e) && Careful(x, UserStop(e))
    requires OvpnOnly(x) && QuietAt(x, t) && EntryFacts(x, t) && EntrySafe(x)
    ensures EntrySafe(DisconnectStep(c, x, t, e).tunnel)
  {}

  /** So do disconnects that have not cleared yet, or have. */
  lemma StopKeepsUp(c: Context, x: Tunnel, t: nat, e: DisconnectEvent)
    requires DisconnectEnabled(c, x, t, e) && !Disturbs(UserStop(e)) && QuietAt(x, t) && OldOwners(c, x)
    ensures var y := DisconnectStep(c, x, t, e).tunnel;
      && y.entry == x.entry && y.wg == x.wg && y.slot == x.slot
      && (Announced(x) ==> Announced(y)) && (ComesUp(y) ==> ComesUp(x)) && (Up(x) ==> Up(y))
  {
    StopFrame(c, x, t, e, t);
    if x.entry.Some? && x.entry.value.leaving.Some? { StopFrame(c, x, t, e, x.entry.value.leaving.value); }
    if x.entry.Some? && x.entry.value.launcher.Some? { StopFrame(c, x, t, e, x.entry.value.launcher.value); }
    hide DisconnectEnabled, DisconnectStep;
  }

  lemma StopAuto(c: Context, x: Tunnel, t: nat, e: DisconnectEvent)
    requires DisconnectEnabled(c, x, t, e) && Careful(x, UserStop(e)) && c.killSwitch && Auto(x.slot)
    requires OvpnOnly(x) && QuietAt(x, t) && EntryFacts(x, t) && EntrySafe(x) && OldOwners(c, x) && AutoCovered(x)
    ensures AutoCovered(DisconnectStep(c, x, t, e).tunnel)
  {
    StopKeepsUp(c, x, t, e);
    hide DisconnectStep, DisconnectEnabled, EntrySafe, QuietAt, ComesUp, Up, EntryFacts, OldOwners;
  }

  lemma StopPlain(c: Context, x: Tunnel, t: nat, e: DisconnectEvent)
    requires DisconnectEnabled(c, x, t, e) && Careful(x, UserStop(e)) && c.killSwitch && !Auto(x.slot)
    requires OvpnOnly(x) && QuietAt(x, t) && EntryFacts(x, t) && EntrySafe(x) && OldOwners(c, x) && PlainCovered(x)
    ensures PlainCovered(DisconnectStep(c, x, t, e).tunnel)
  {
    StopKeepsUp(c, x, t, e);
    hide DisconnectStep, DisconnectEnabled, EntrySafe, QuietAt, ComesUp, Up, EntryFacts, OldOwners;
  }

  lemma RetryQuiet(c: Context, x: Tunnel, t: nat, e: RetryEvent, u: nat)
    requires RetryEnabled(c, x, t, e) && !Disturbs(Retry(e))
    requires OvpnOnly(x) && QuietAt(x, t) && QuietAt(x, u)
    ensures var y := RetryStep(c, x, t, e).tunnel; OvpnOnly(y) && QuietAt(y, u) && Auto(y.slot) == Auto(x.slot)
  {
    RetryRequest(c, x, t, e);
    RetryManagers(c, x, t, e);
    RetryOwn(c, x, t, e);
    if u != t { RetryFrame(c, x, t, e, u); }
    hide RetryEnabled, RetryStep;
  }

  lemma RetryEntry(c: Context, x: Tunnel, t: nat, e: RetryEvent)
    requires RetryEnabled(c, x, t, e) && Careful(x, Retry(e))
    requires OvpnOnly(x) && QuietAt(x, t) && EntryFacts(x, t) && EntrySafe(x)
    ensures EntrySafe(RetryStep(c, x, t, e).tunnel)
  {}

  /** A sequence changes neither who cleans the process up nor, unless it panics there, who launches it. */
  lemma RetryKeepsUp(c: Context, x: Tunnel, t: nat, e: RetryEvent)
    requires RetryEnabled(c, x, t, e) && OldOwners(c, x)
    ensures var y := RetryStep(c, x, t, e).tunnel;
      && (Announced(x) ==> Announced(y)) && (ComesUp(y) ==> ComesUp(x)) && (!e.Timeout? && Up(x) ==> Up(y))
  {
    RetryManagers(c, x, t, e);
    RetryOwn(c, x, t, e);
    if x.entry.Some? && x.entry.value.leaving.Some? && x.entry.value.leaving.value != t {
      RetryFrame(c, x, t, e, x.entry.value.leaving.value);
    }
    if x.entry.Some? && x.entry.value.launcher.Some? && x.entry.value.launcher.value != t {
      RetryFrame(c, x, t, e, x.entry.value.launcher.value);
    }
    hide RetryEnabled, RetryStep;
  }

  /** A release with auto-reconnect leaves a hold, a tunnel that is up, or a block. */
  lemma ReleaseAuto(c: Context, x: Tunnel, t: nat)
    requires RetryEnabled(c, x, t, Release) && Careful(x, Retry(Release)) && c.killSwitch && Auto(x.slot)
    requires OvpnOnly(x) && EntryFacts(x, t) && EntrySafe(x) && OldOwners(c, x) && AutoCovered(x)
    ensures AutoCovered(RetryStep(c, x, t, Release).tunnel)
  {
    RetryKeepsUp(c, x, t, Release);
    RetryManagers(c, x, t, Release);
    RetrySlotIs(c, x, t, Release);
    hide RetryStep, EntrySafe, LaunchOk, TeardownOk;
  }

  lemma RetryAuto(c: Context, x: Tunnel, t: nat, e: RetryEvent)
    requires RetryEnabled(c, x, t, e) && Careful(x, Retry(e)) && c.killSwitch && Auto(x.slot)
    requires OvpnOnly(x) && QuietAt(x, t) && EntryFacts(x, t) && EntrySafe(x) && OldOwners(c, x) && AutoCovered(x)
    ensures AutoCovered(RetryStep(c, x, t, e).tunnel)
  {
    if e.Release? {
      ReleaseAuto(c, x, t);
    } else {
      RetryKeepsUp(c, x, t, e);
      RetryManagers(c, x, t, e);
      RetrySlotIs(c, x, t, e);
      hide RetryStep, RetryEnabled, EntrySafe, QuietAt, ComesUp;
    }
  }

  lemma OvpnQuiet(c: Context, x: Tunnel, t: nat, e: OvpnEvent, u: nat)
    requires OvpnEnabled(x, e) && !Disturbs(Ovpn(e))
    requires OvpnOnly(x) && QuietAt(x, t) && QuietAt(x, u)
    ensures var y := OvpnStep(x, e); OvpnOnly(y) && QuietAt(y, u) && Auto(y.slot) == Auto(x.slot)
  {}

  lemma OvpnEntry(c: Context, x: Tunnel, t: nat, e: OvpnEvent)
    requires OvpnEnabled(x, e) && Careful(x, Ovpn(e))
    requires OvpnOnly(x) && QuietAt(x, t) && EntryFacts(x, t) && EntrySafe(x)
    ensures EntrySafe(OvpnStep(x, e))
  {}

  lemma OvpnAuto(c: Context, x: Tunnel, t: nat, e: OvpnEvent)
    requires OvpnEnabled(x, e) && Careful(x, Ovpn(e)) && c.killSwitch && Auto(x.slot)
    requires OvpnOnly(x) && QuietAt(x, t) && EntryFacts(x, t) && EntrySafe(x) && OldOwners(c, x) && AutoCovered(x)
    ensures AutoCovered(OvpnStep(x, e))
  {}

  lemma OvpnPlain(c: Context, x: Tunnel, t: nat, e: OvpnEvent)
    requires OvpnEnabled(x, e) && Careful(x, Ovpn(e)) && c.killSwitch && !Auto(x.slot)
    requires OvpnOnly(x) && QuietAt(x, t) && EntryFacts(x, t) && EntrySafe(x) && OldOwners(c, x) && PlainCovered(x)
    ensures PlainCovered(OvpnStep(x, e))
  {}

  lemma TearQuiet(c: Context, x: Tunnel, t: nat, e: TearEvent, u: nat)
    requires TearEnabled(c, x, t, e) && !Disturbs(Tear(e))
    requires OvpnOnly(x) && QuietAt(x, t) && QuietAt(x, u)
    ensures var y := TearStep(c, x, t, e); OvpnOnly(y) && QuietAt(y, u) && Auto(y.slot) == Auto(x.slot)
  {}

  lemma TearEntry(c: Context, x: Tunnel, t: nat, e: TearEvent)
    requires TearEnabled(c, x, t, e) && Careful(x, Tear(e))
    requires OvpnOnly(x) && QuietAt(x, t) && EntryFacts(x, t) && EntrySafe(x)
    ensures EntrySafe(TearStep(c, x, t, e))
  {}

  lemma TearAuto(c: Context, x: Tunnel, t: nat, e: TearEvent)
    requires TearEnabled(c, x, t, e) && Careful(x, Tear(e)) && c.killSwitch && Auto(x.slot)
    requires OvpnOnly(x) && QuietAt(x, t) && EntryFacts(x, t) && EntrySafe(x) && OldOwners(c, x) && AutoCovered(x)
    ensures AutoCovered(TearStep(c, x, t, e))
  {}

  lemma TearPlain(c: Context, x: Tunnel, t: nat, e: TearEvent)
    requires TearEnabled(c, x, t, e) && Careful(x, Tear(e)) && c.killSwitch && !Auto(x.slot)
    requires OvpnOnly(x) && QuietAt(x, t) && EntryFacts(x, t) && EntrySafe(x) && OldOwners(c, x) && PlainCovered(x)
    ensures PlainCovered(TearStep(c, x, t, e))
  {}

  lemma WgQuiet(c: Context, x: Tunnel, t: nat, e: WgEvent, u: nat)
    requires WgEnabled(c, x, t, e) && !Disturbs(Wg(e))
    requires OvpnOnly(x) && QuietAt(x, t) && QuietAt(x, u)
    ensures var y := WgStep(c, x, t, e); OvpnOnly(y) && QuietAt(y, u) && Auto(y.slot) == Auto(x.slot)
  {}

  lemma WgEntry(c: Context, x: Tunnel, t: nat, e: WgEvent)
    requires WgEnabled(c, x, t, e) && Careful(x, Wg(e))
    requires OvpnOnly(x) && QuietAt(x, t) && EntryFacts(x, t) && EntrySafe(x)
    ensures EntrySafe(WgStep(c, x, t, e))
  {}

  lemma WgAuto(c: Context, x: Tunnel, t: nat, e: WgEvent)
    requires WgEnabled(c, x, t, e) && Careful(x, Wg(e)) && c.killSwitch && Auto(x.slot)
    requires OvpnOnly(x) && QuietAt(x, t) && EntryFacts(x, t) && EntrySafe(x) && OldOwners(c, x) && AutoCovered(x)
    ensures AutoCovered(WgStep(c, x, t, e))
  {}

  lemma WgPlain(c: Context, x: Tunnel, t: nat, e: WgEvent)
    requires WgEnabled(c, x, t, e) && Careful(x, Wg(e)) && c.killSwitch && !Auto(x.slot)
    requires OvpnOnly(x) && QuietAt(x, t) && EntryFacts(x, t) && EntrySafe(x) && OldOwners(c, x) && PlainCovered(x)
    ensures PlainCovered(WgStep(c, x, t, e))
  {}

  lemma RetryPlain(c: Context, x: Tunnel, t: nat, e: RetryEvent)
    requires RetryEnabled(c, x, t, e) && Careful(x, Retry(e)) && c.killSwitch && !Auto(x.slot)
    requires OvpnOnly(x) && QuietAt(x, t) && EntryFacts(x, t) && EntrySafe(x) && OldOwners(c, x) && PlainCovered(x)
    ensures PlainCovered(RetryStep(c, x, t, e).tunnel)
  {
    RetryKeepsUp(c, x, t, e);
    RetryManagers(c, x, t, e);
    RetrySlotIs(c, x, t, e);
    hide RetryStep, RetryEnabled, EntrySafe, QuietAt, ComesUp;
  }

  lemma PlainNeverCalls(c: Context, x: Tunnel, t: nat, e: CallEvent)
    requires OvpnOnly(x) && QuietAt(x, t) && !Auto(x.slot)
    ensures !CallEnabled(c, x, t, e)
  {}

  // ---- one step of the tunnel ----

  lemma StepQuiet(c: Context, x: Tunnel, t: nat, step: Step, u: nat)
    requires StepEnabled(c, x, t, step) && !Disturbs(step)
    requires OvpnOnly(x) && QuietAt(x, t) && QuietAt(x, u)
    ensures var y := TunnelStep(c, x, t, step).tunnel; OvpnOnly(y) && QuietAt(y, u) && Auto(y.slot) == Auto(x.slot)
  {
    match step
    case User(e) => UserQuiet(c, x, t, e, u);
    case Call(e) => CallQuiet(c, x, t, e, u);
    case UserStop(e) => StopQuiet(c, x, t, e, u);
    case Retry(e) => RetryQuiet(c, x, t, e, u);
    case Ovpn(e) => OvpnQuiet(c, x, t, e, u);
    case Tear(e) => TearQuiet(c, x, t, e, u);
    case Wg(e) => WgQuiet(c, x, t, e, u);
  }

  lemma StepEntrySafe(c: Context, x: Tunnel, t: nat, step: Step)
    requires StepEnabled(c, x, t, step) && Careful(x, step)
    requires OvpnOnly(x) && QuietAt(x, t) && EntryFacts(x, t) && EntrySafe(x)
    ensures EntrySafe(TunnelStep(c, x, t, step).tunnel)
  {
    match step
    case User(e) => UserEntry(c, x, t, e);
    case Call(e) => CallEntry(c, x, t, e);
    case UserStop(e) => StopEntry(c, x, t, e);
    case Retry(e) => RetryEntry(c, x, t, e);
    case Ovpn(e) => OvpnEntry(c, x, t, e);
    case Tear(e) => TearEntry(c, x, t, e);
    case Wg(e) => WgEntry(c, x, t, e);
  }

  lemma StepAuto(c: Context, x: Tunnel, t: nat, step: Step)
    requires StepEnabled(c, x, t, step) && Careful(x, step) && c.killSwitch && Auto(x.slot)
    requires OvpnOnly(x) && QuietAt(x, t) && EntryFacts(x, t) && EntrySafe(x) && OldOwners(c, x) && AutoCovered(x)
    ensures AutoCovered(TunnelStep(c, x, t, step).tunnel)
  {
    match step
    case User(e) => UserAuto(c, x, t, e);
    case Call(e) => CallAuto(c, x, t, e);
    case UserStop(e) => StopAuto(c, x, t, e);
    case Retry(e) => RetryAuto(c, x, t, e);
    case Ovpn(e) => OvpnAuto(c, x, t, e);
    case Tear(e) => TearAuto(c, x, t, e);
    case Wg(e) => WgAuto(c, x, t, e);
  }

  lemma StepPlain(c: Context, x: Tunnel, t: nat, step: Step)
    requires StepEnabled(c, x, t, step) && Careful(x, step) && c.killSwitch && !Auto(x.slot)
    requires OvpnOnly(x) && QuietAt(x, t) && EntryFacts(x, t) && EntrySafe(x) && OldOwners(c, x) && PlainCovered(x)
    ensures PlainCovered(TunnelStep(c, x, t, step).tunnel)
  {
    match step
    case User(e) => UserPlain(c, x, t, e);
    case UserStop(e) => StopPlain(c, x, t, e);
    case Ovpn(e) => OvpnPlain(c, x, t, e);
    case Tear(e) => TearPlain(c, x, t, e);
    case Wg(e) => WgPlain(c, x, t, e);
    case Call(e) => PlainNeverCalls(c, x, t, e);
    case Retry(e) => RetryPlain(c, x, t, e);
  }

  lemma TidyOwners(c: Context, x: Tunnel)
    requires Tidy(c.killSwitch, c.mu, c.id, x)
    ensures OldOwners(c, x)
  {
    if x.entry.Some? && x.entry.value.leaving.Some? {
      assert EntryFacts(x, x.entry.value.leaving.value) && LockFacts(c.mu, c.id, x, x.entry.value.leaving.value);
    }
    if x.entry.Some? && x.entry.value.launcher.Some? {
      assert LockFacts(c.mu, c.id, x, x.entry.value.launcher.value);
    }
  }

  lemma StepSafe(c: Context, x: Tunnel, t: nat, step: Step)
    requires StepEnabled(c, x, t, step) && Careful(x, step) && c.killSwitch
    requires Tidy(c.killSwitch, c.mu, c.id, x) && Safe(x)
    ensures Safe(TunnelStep(c, x, t, step).tunnel)
  {
    var y := TunnelStep(c, x, t, step).tunnel;
    assert QuietAt(x, t) && EntryFacts(x, t);
    TidyOwners(c, x);
    StepEntrySafe(c, x, t, step);
    forall u ensures QuietAt(y, u) && OvpnOnly(y) && Auto(y.slot) == Auto(x.slot) { StepQuiet(c, x, t, step, u); }
    assert QuietAt(y, t);
    if Auto(x.slot) {
      StepAuto(c, x, t, step);
    } else {
      StepPlain(c, x, t, step);
    }
  }

  lemma PolicySlotKeeps(x: Slot, e: PolicyEvent, listed: Option<Pass>)
    requires e.SetKillSwitch? && e.loaded ==> e.on
    ensures var y := PolicySlot(x, e, listed);
      && y == x.(blocked := y.blocked, cached := y.cached)
      && (listed.None? || x.blocked.None? ==> y.blocked == x.blocked)
  {}

  /** An apply lifts the block of a tunnel only if it is up. */
  lemma BlockFrameSafe(x: Tunnel, y: Tunnel)
    requires Safe(x) && EntryFacts(x, 0) && y == x.(slot := x.slot.(blocked := y.slot.blocked, cached := y.slot.cached))
    requires !Live(x) || x.slot.blocked.None? ==> y.slot.blocked == x.slot.blocked
    ensures Safe(y)
  {
    forall u ensures QuietAt(y, u) { assert QuietAt(x, u); }
  }

  lemma PolicySafe(s: Sys, e: PolicyEvent, n: Name)
    requires Enabled(s, OnPolicy(e)) && (e.SetKillSwitch? && e.loaded ==> e.on)
    requires Sound(s) && Safe(TunnelAt(s, n))
    ensures Safe(TunnelAt(PolicyStep(s, e), n))
  {
    var x, y := TunnelAt(s, n), TunnelAt(PolicyStep(s, e), n);
    PolicyFrame(s, e, n);
    PolicySlotKeeps(x.slot, e, LiveAt(e.live, n));
    assert TidyAt(s, n) && EntryFacts(x, 0);
    hide PolicySlot, PolicyStep, IsSnapshot, Sound, Safe, Tidy, EntryFacts;
    BlockFrameSafe(x, y);
  }

  // ---- runs ----

  /** The event neither acts on tunnel n for the user, nor turns the kill switch off, nor exposes n. */
  ghost predicate CarefulEvent(s: Sys, e: Event, n: Name) {
    match e
    case OnPolicy(change) => change.SetKillSwitch? && change.loaded ==> change.on
    case On(m, t, step) => m == n ==> Careful(TunnelAt(s, n), step)
  }

  ghost predicate CarefulRun(s: Sys, run: seq<Event>, n: Name)
    requires IsRun(s, run)
    decreases |run|
  {
    run == [] || (CarefulEvent(s, run[0], n) && CarefulRun(Next(s, run[0]), run[1..], n))
  }

  lemma SafeStep(s: Sys, e: Event, n: Name)
    requires Sound(s) && s.killSwitch && Safe(TunnelAt(s, n))
    requires Enabled(s, e) && CarefulEvent(s, e, n)
    ensures var z := Next(s, e); Sound(z) && z.killSwitch && Safe(TunnelAt(z, n))
  {
    SoundStep(s, e);
    match e
    case OnPolicy(change) => PolicySafe(s, change, n);
    case On(m, t, step) =>
      if m == n {
        assert TidyAt(s, n);
        StepSafe(ContextOf(s), TunnelAt(s, n), t, step);
      }
  }

  /** Once safe, protected for the rest of any careful run. */
  lemma {:induction false} RunSafe(s: Sys, run: seq<Event>, n: Name)
    requires Sound(s) && s.killSwitch && Safe(TunnelAt(s, n))
    requires IsRun(s, run) && CarefulRun(s, run, n)
    ensures var z := After(s, run); Sound(z) && z.killSwitch && Safe(TunnelAt(z, n))
    decreases |run|
  {
    if run != [] {
      SafeStep(s, run[0], n);
      RunSafe(Next(s, run[0]), run[1..], n);
    }
  }

  // ---- from a tunnel that is up ----

  /** Thread u is no connect or disconnect in the middle of what it does. */
  predicate NoUserAction(x: Tunnel, u: nat) {
    u in x.threads ==>
      match x.threads[u]
      case Connector(_, _, _, _, stage, _, _) => stage.Arriving? || stage.ArrivingInWindow? || stage.Checked?
      case Disconnector(stage) => stage.Clearing? || stage.Finishing?
      case _ => true
  }

  /**
   * The tunnel is a wanted OpenVPN tunnel that the firewall passes, its process
   * runs and has not been told to exit, or its death is still to be announced, and
   * no user action on it is under way. Retry sequences, death callbacks and final
   * statuses of earlier connects may be.
   */
  ghost predicate Settled(x: Tunnel) {
    && x.slot.ovpnConfig.Some? && x.slot.wgConfig.None? && x.wg.None?
    && Up(x)
    && forall u :: NoUserAction(x, u)
  }

  lemma SettledIsSafe(s: Sys, n: Name)
    requires Reachable(s) && Settled(TunnelAt(s, n))
    ensures Safe(TunnelAt(s, n))
  {
    var x := TunnelAt(s, n);
    ReachableWired(s, n);
    forall u ensures QuietAt(x, u) { assert NoUserAction(x, u) && CallsWanted(x, u); }
    assert s.mu.Some? ==> NoUserAction(x, s.mu.value);
  }

  /** Once in ActiveRemotes, an entry stays there until its cleanup removes it, after its death notice if it is a death. */
  lemma StaysInActiveRemotes(c: Context, x: Tunnel, t: nat, step: Step)
    requires StepEnabled(c, x, t, step) && EntryFacts(x, t)
    requires x.entry.Some? && InActiveRemotes(x.entry.value)
    ensures var y := TunnelStep(c, x, t, step).tunnel;
      || (y.entry.Some? && InActiveRemotes(y.entry.value))
      || (step == Tear(Remove) && y.entry.None? && x.threads[t] in {Teardown(true, Dying), Teardown(false, Decided)})
  {}

  /** The policy fields of the state, as the ruleset computation sees them. */
  function PolicyOf(s: Sys, dnsProtection: bool): Policy {
    Policy(s.killSwitch, dnsProtection, map n | n in s.tunnels :: s.tunnels[n].slot)
  }

  /** rs is what an apply in state s computes from a snapshot of the live tunnels. */
  ghost predicate Computes(s: Sys, live: seq<LiveTunnel>, dnsProtection: bool, servers: seq<string>, rs: Ruleset) {
    IsSnapshot(s, live) && Exact(PolicyOf(s, dnsProtection), live, servers, rs)
  }

  /** Everything the ruleset of such a state lets out. */
  ghost predicate Allowed(net: Net, p: Policy, live: seq<LiveTunnel>, k: Packet) {
    || k.iface == "lo0" || LinkControl(k)
    || (k.iface != "" && HasIface(LivePasses(live), k.iface))
    || (IsDNS(k) && exists s :: WindowServer(p, s) && net.parseIP(s) == Some(k.dst))
    || (exists proto, ep :: HitsEndpoint(net, proto, ep, k) &&
          (Passed(LivePasses(live), proto, ep) || KnownToSome(p, live, proto, ep)))
  }

  lemma ProtectedCloses(s: Sys, n: Name, live: seq<LiveTunnel>, dnsProtection: bool, servers: seq<string>, rs: Ruleset)
    requires s.killSwitch && Protected(TunnelAt(s, n)) && Computes(s, live, dnsProtection, servers, rs)
    ensures rs.killSwitch && rs != NO_RULES
  {
    var p := PolicyOf(s, dnsProtection);
    assert ListedRight(TunnelAt(s, n), LiveAt(live, n));
    assert SlotAt(p, n) == TunnelAt(s, n).slot;
    assert n in LiveNames(live) ==> live != [];
  }

  /** A closed ruleset that is exact passes nothing beyond the tunnels, their servers and the lookups. */
  lemma ClosedMeansAllowed(net: Net, p: Policy, live: seq<LiveTunnel>, servers: seq<string>, rs: Ruleset, k: Packet)
    requires Exact(p, live, servers, rs) && rs.killSwitch && Verdict(net, rs, k)
    ensures Allowed(net, p, live, k)
  {
    assert rs != NO_RULES;
    if ToEndpoint(net, rs, k) {
      var t :| t in rs.tunnels && HitsPass(net, t, k);
      var ep :| ep in t.endpoints && HitsEndpoint(net, t.proto, ep, k);
      assert Passed(rs.tunnels, t.proto, ep);
    }
    if OnTunnel(rs, k) {
      assert HasIface(rs.tunnels, k.iface);
    }
  }

  /**
   * Fail closed: from a settled tunnel under the kill switch, in any reachable
   * state, at every point of every careful run, the tunnel is live, held, pending or blocked, the ruleset
   * an apply computes has the kill switch on, and pf passes nothing with it but
   * the tunnels, their servers, open lookups and link control.
   */
  lemma NeverOpens(s: Sys, run: seq<Event>, n: Name, live: seq<LiveTunnel>, dnsProtection: bool, servers: seq<string>, rs: Ruleset)
    requires Reachable(s) && s.killSwitch && Settled(TunnelAt(s, n))
    requires IsRun(s, run) && CarefulRun(s, run, n)
    requires Computes(After(s, run), live, dnsProtection, servers, rs)
    ensures Protected(TunnelAt(After(s, run), n))
    ensures rs.killSwitch
    ensures forall net, k :: Verdict(net, rs, k) ==> Allowed(net, PolicyOf(After(s, run), dnsProtection), live, k)
  {
    var z := After(s, run);
    ReachableIsSound(s);
    SettledIsSafe(s, n);
    RunSafe(s, run, n);
    SafeProtects(TunnelAt(z, n));
    ProtectedCloses(z, n, live, dnsProtection, servers, rs);
    forall net, k | Verdict(net, rs, k) ensures Allowed(net, PolicyOf(z, dnsProtection), live, k) {
      ClosedMeansAllowed(net, PolicyOf(z, dnsProtection), live, servers, rs, k);
    }
  }
}
