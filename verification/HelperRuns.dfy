// The helper as a state machine: its policy, both tunnel managers as far as
// the policy sees them, and every thread that touches it, one critical
// section a step. A manager query that guards a section is part of the step.
module HelperRuns {
  import opened Common
  import opened Rules
  import opened KillSwitch

  /** One running OpenVPN process in the manager's table. */
  datatype Entry = Entry(
    launcher: Option<nat>, // the thread whose Connect reserved the name; None once openvpn runs
    active: bool,         // reached CONNECTED once; stays set while it reconnects
    connected: bool,      // current state is CONNECTED
    remote: string,       // server address in use, "" if unknown
    iface: string,        // utun name, "" until it is read from the log
    proto: string,
    toldToExit: bool,     // a user Disconnect or a connect timeout asked it to exit
    callbacks: nat,       // active-change callbacks still to run
    leaving: Option<nat>) // the supervisor that has begun the final cleanup

  function Reserved(t: nat): Entry { Entry(Some(t), false, false, "", "", "udp", false, 0, None) }

  datatype WgState = WgConnecting | WgConnected(pass: Pass) | WgStopping

  datatype ConnectStage =
    | Arriving              // epoch read; connectMu not taken yet
    | ArrivingInWindow      // resolving hostnames with port 53 passed
    | Checked               // connectMu held, not overtaken by a Disconnect
    | ConfigCached
    | Ready(lifted: bool)
    | InConnect(lifted: bool)
    | Failed(lifted: bool)
    | Restoring
    | Settling

  datatype DisconnectStage = Clearing | Stopping | StoppingWg | Finishing

  datatype RetryStage =
    | Notified              // auto-reconnect was on when the death was reported
    | Registered(earlier: Option<nat>)
    | Replacing(earlier: Option<nat>)   // hold taken, earlier sequence still to be cancelled
    | Backoff
    | Attempting
    | Resolving             // lookup window open
    | Queued                // waiting for connectMu
    | Checking              // connectMu held
    | Calling(proto: Protocol)
    | Connecting(proto: Protocol)
    | Waiting               // polling the OpenVPN process
    | Ending                // loop left, hold not yet released

  datatype TearStage = Decided | Dying | Removed | Reported | Undying | Forgotten

  datatype DeathStage = Down | Gone | Handled

  /** What one thread is doing for its tunnel. */
  datatype Thread =
    | Connector(proto: Protocol, cfg: Config, auto: bool, epoch: nat, connectAt: ConnectStage,
                prevCfg: Option<Config>, prevAuto: Option<bool>)
    | Disconnector(disconnectAt: DisconnectStage)
    | Retrier(retryAt: RetryStage, cancelled: bool, attempt: nat)
    | Teardown(died: bool, tearAt: TearStage)
    | WgDeath(deathAt: DeathStage)

  /** Everything about one tunnel name: policy slot, managers, threads, retry registry. */
  datatype Tunnel = Tunnel(
    slot: Slot, entry: Option<Entry>, wg: Option<WgState>, threads: map<nat, Thread>, retry: Option<nat>)

  const FRESH_TUNNEL := Tunnel(FRESH_SLOT, None, None, map[], None)

  datatype Sys = Sys(
    killSwitch: bool,
    tunnels: map<Name, Tunnel>,   // a missing name is FRESH_TUNNEL
    mu: Option<nat>,              // the thread holding connectMu
    nextId: nat,                  // the id of the next thread; ids are never reused
    maxAttempts: nat)             // 0: unlimited

  function Init(maxAttempts: nat): Sys { Sys(false, map[], None, 0, maxAttempts) }

  function TunnelAt(s: Sys, n: Name): Tunnel { if n in s.tunnels then s.tunnels[n] else FRESH_TUNNEL }

  predicate AnyBlocked(s: Sys) { exists n | n in s.tunnels :: s.tunnels[n].slot.blocked.Some? }

  // ---- events ----

  datatype MgmtState = Reconnecting | Exiting | Progress | Failure

  datatype PolicyEvent =
    | ApplyRules(live: seq<LiveTunnel>)     // also what a DNS protection change does
    | SetKillSwitch(on: bool, live: seq<LiveTunnel>, loaded: bool)

  /** A user connect. */
  datatype ConnectEvent =
    | Arrive(proto: Protocol, cfg: Config, auto: bool)
    | OpenWindow(resolvers: seq<string>)
    | CloseWindow
    | Acquire
    | Reject
    | CacheRequest
    | Lift(resolved: seq<Literal>)
    | Uncache
    | RestoreBlock
    | Settle

  /** Either manager's Connect, called by a user connect or a retry. */
  datatype CallEvent =
    | Begin(refused: bool)
    | Finish(ok: bool, seed: string, pass: Pass)

  /** A user disconnect. */
  datatype DisconnectEvent = AcquireToStop | Clear | Stop | WgStopped | Done

  /** A retry sequence. */
  datatype RetryEvent =
    | HealthCheck
    | Register
    | Hold
    | Replace
    | Leave
    | Fire
    | OpenRetryWindow(resolvers: seq<string>)
    | CloseRetryWindow(answers: seq<Literal>)
    | Enter
    | Check
    | Connected
    | Vanished
    | Timeout
    | Panic
    | Release

  /** The OpenVPN management channel and log. */
  datatype OvpnEvent =
    | MgmtConnected(addr: string)
    | MgmtOther(state: MgmtState)
    | InterfaceKnown(iface: string)
    | ActiveCallback

  /** The end of an OpenVPN process. */
  datatype TearEvent = BeginTear | OnDying | Remove | Report | OnDied | Forget | NotifyDeath

  /** The death of a WireGuard engine. */
  datatype WgEvent = Die | Vanish | ForgetWg | NotifyWg

  datatype Step =
    | User(connect: ConnectEvent)
    | Call(call: CallEvent)
    | UserStop(disconnect: DisconnectEvent)
    | Retry(retry: RetryEvent)
    | Ovpn(ovpn: OvpnEvent)
    | Tear(tear: TearEvent)
    | Wg(wg: WgEvent)

  /** A policy step, or a step for tunnel n by thread t (ignored by Ovpn steps). */
  datatype Event =
    | OnPolicy(change: PolicyEvent)
    | On(n: Name, t: nat, step: Step)

  // ---- what is up ----

  predicate InActiveRemotes(e: Entry) { e.active && e.remote != "" && e.iface != "" }

  predicate LiveEntry(e: Entry) { InActiveRemotes(e) || (e.connected && e.iface != "") }

  predicate LiveOvpn(x: Tunnel) { x.entry.Some? && LiveEntry(x.entry.value) }

  predicate LiveWg(x: Tunnel) { x.wg.Some? && x.wg.value.WgConnected? }

  /** The firewall counts the tunnel as up. */
  predicate Live(x: Tunnel) { LiveOvpn(x) || LiveWg(x) }

  /** The check a retry sequence makes when it gives its hold back. */
  predicate IsUp(x: Tunnel) { LiveWg(x) || (x.entry.Some? && InActiveRemotes(x.entry.value)) }

  function EntryPass(e: Entry): Pass {
    if InActiveRemotes(e) then Pass(e.iface, e.proto, [e.remote]) else Pass(e.iface, "", [])
  }

  predicate ListedRight(x: Tunnel, listed: Option<Pass>) {
    if !Live(x) then listed.None?
    else listed.Some? && ((LiveWg(x) && x.wg.value.pass == listed.value) || (LiveOvpn(x) && EntryPass(x.entry.value) == listed.value))
  }

  /** live lists exactly the tunnels that are up. */
  ghost predicate IsSnapshot(s: Sys, live: seq<LiveTunnel>) {
    forall n :: ListedRight(TunnelAt(s, n), LiveAt(live, n))
  }

  // ---- threads ----

  predicate ConnectorAt(x: Tunnel, t: nat, stage: ConnectStage) {
    t in x.threads && x.threads[t].Connector? && x.threads[t].connectAt == stage
  }

  predicate DisconnectorAt(x: Tunnel, t: nat, stage: DisconnectStage) {
    t in x.threads && x.threads[t] == Disconnector(stage)
  }

  predicate TeardownAt(x: Tunnel, t: nat, stage: TearStage) {
    t in x.threads && x.threads[t].Teardown? && x.threads[t].tearAt == stage
  }

  predicate WgDeathAt(x: Tunnel, t: nat, stage: DeathStage) {
    t in x.threads && x.threads[t] == WgDeath(stage)
  }

  function Put(x: Tunnel, t: nat, th: Thread): Tunnel { x.(threads := x.threads[t := th]) }

  function End(x: Tunnel, t: nat): Tunnel { x.(threads := x.threads - {t}) }

  function MoveConnector(x: Tunnel, t: nat, stage: ConnectStage): Tunnel
    requires t in x.threads && x.threads[t].Connector?
  {
    Put(x, t, x.threads[t].(connectAt := stage))
  }

  function MoveRetrier(x: Tunnel, t: nat, stage: RetryStage): Tunnel
    requires t in x.threads && x.threads[t].Retrier?
  {
    Put(x, t, x.threads[t].(retryAt := stage))
  }

  function MoveTeardown(x: Tunnel, t: nat, stage: TearStage): Tunnel
    requires t in x.threads && x.threads[t].Teardown?
  {
    Put(x, t, x.threads[t].(tearAt := stage))
  }

  /** A sequence is inside the backoff loop. */
  predicate Looping(stage: RetryStage) {
    stage.Backoff? || stage.Attempting? || stage.Resolving? || stage.Queued? || stage.Checking? ||
    stage.Calling? || stage.Connecting? || stage.Waiting?
  }

  /** A sequence has taken its hold and not given it back. */
  predicate HasHold(th: Thread) {
    th.Retrier? && (Looping(th.retryAt) || th.retryAt.Replacing? || th.retryAt.Ending?)
  }

  /** The thread is about to call, or is inside, a manager's Connect. */
  predicate AtCall(th: Thread) {
    (th.Connector? && th.connectAt.Ready?) || (th.Retrier? && th.retryAt.Calling?)
  }

  predicate InsideCall(th: Thread) {
    (th.Connector? && th.connectAt.InConnect?) || (th.Retrier? && th.retryAt.Connecting?)
  }

  function CallProtocol(th: Thread): Protocol
    requires AtCall(th) || InsideCall(th)
  {
    if th.Connector? then th.proto else th.retryAt.proto
  }

  /** The thread is in a section that connectMu protects. */
  predicate Locked(th: Thread) {
    || (th.Connector? && !th.connectAt.Arriving? && !th.connectAt.ArrivingInWindow?)
    || th.Disconnector?
    || (th.Retrier? && (th.retryAt.Checking? || th.retryAt.Calling? || th.retryAt.Connecting?))
  }

  // ---- steps ----

  /** What a step for one tunnel sees of the rest of the helper. */
  datatype Context = Context(killSwitch: bool, anyBlocked: bool, mu: Option<nat>, id: nat, maxAttempts: nat)

  function ContextOf(s: Sys): Context { Context(s.killSwitch, AnyBlocked(s), s.mu, s.nextId, s.maxAttempts) }

  /** The tunnel and the owner of connectMu after a step. */
  datatype Out = Out(tunnel: Tunnel, mu: Option<nat>)

  predicate ConnectEnabled(c: Context, x: Tunnel, t: nat, e: ConnectEvent) {
    match e
    case Arrive(_, _, _) => t == c.id
    case OpenWindow(_) =>
      ConnectorAt(x, t, Arriving) && c.killSwitch && x.threads[t].cfg.hosts != [] && x.wg.None? && x.entry.None?
    case CloseWindow => ConnectorAt(x, t, ArrivingInWindow)
    case Acquire => ConnectorAt(x, t, Arriving) && c.mu.None?
    case Reject => ConnectorAt(x, t, Checked)
    case CacheRequest =>
      ConnectorAt(x, t, Checked) && (if x.threads[t].proto == WireGuard then x.wg.None? else x.entry.None?)
    case Lift(_) => ConnectorAt(x, t, ConfigCached)
    case Uncache => t in x.threads && x.threads[t].Connector? && x.threads[t].connectAt.Failed?
    case RestoreBlock => ConnectorAt(x, t, Restoring)
    case Settle => ConnectorAt(x, t, Settling)
  }

  function ConnectStep(c: Context, x: Tunnel, t: nat, e: ConnectEvent): Out
    requires ConnectEnabled(c, x, t, e)
  {
    match e
    case Arrive(proto, cfg, auto) =>
      Out(Put(x, t, Connector(proto, cfg, auto, x.slot.epoch, Arriving, None, None)), c.mu)
    case OpenWindow(resolvers) =>
      Out(MoveConnector(x.(slot := OpenWindowSlot(x.slot, resolvers)), t, ArrivingInWindow), c.mu)
    case CloseWindow => Out(MoveConnector(x.(slot := CloseWindowSlot(x.slot)), t, Arriving), c.mu)
    case Acquire =>
      // overtaken by a Disconnect: give up
      if x.slot.epoch != x.threads[t].epoch then Out(End(x, t), None)
      else Out(MoveConnector(x, t, Checked), Some(t))
    case Reject => Out(End(x, t), None)
    case CacheRequest =>
      var th := x.threads[t];
      Out(Put(x.(slot := CacheConfigSlot(x.slot, th.proto, th.cfg, th.auto)), t,
              th.(connectAt := ConfigCached, prevCfg := x.slot.wgConfig, prevAuto := x.slot.auto)), c.mu)
    case Lift(resolved) =>
      Out(MoveConnector(x.(slot := LiftSlot(x.slot, c.killSwitch, c.anyBlocked, resolved)), t,
                        Ready(Lifts(x.slot, c.killSwitch, c.anyBlocked))), c.mu)
    case Uncache =>
      var th := x.threads[t];
      var y := x.(slot := UncacheConfigSlot(x.slot, th.proto, th.prevCfg, th.prevAuto));
      if th.connectAt.lifted then Out(MoveConnector(y, t, Restoring), c.mu) else Out(End(y, t), None)
    case RestoreBlock =>
      Out(End(x.(slot := RestoreBlockSlot(x.slot, c.killSwitch, x.threads[t].proto)), t), None)
    case Settle => Out(End(x.(slot := SettleSlot(x.slot)), t), None)
  }

  /** The top of the backoff loop: the next wait, or the end after maxAttempts. */
  function NextAttempt(c: Context, x: Tunnel, t: nat): Tunnel
    requires t in x.threads && x.threads[t].Retrier?
  {
    var r := x.threads[t];
    var stage := if c.maxAttempts > 0 && r.attempt + 1 > c.maxAttempts then Ending else Backoff;
    Put(x, t, r.(attempt := r.attempt + 1, retryAt := stage))
  }

  predicate CallEnabled(c: Context, x: Tunnel, t: nat, e: CallEvent) {
    match e
    case Begin(_) => t in x.threads && AtCall(x.threads[t])
    case Finish(_, _, _) =>
      t in x.threads && InsideCall(x.threads[t]) && (CallProtocol(x.threads[t]) == OpenVPN ==> x.entry.Some?)
  }

  /** Connect returned an error before or after claiming the name. */
  function CallFailed(c: Context, x: Tunnel, t: nat): Out
    requires t in x.threads && (AtCall(x.threads[t]) || InsideCall(x.threads[t]))
  {
    var th := x.threads[t];
    if th.Connector? then Out(MoveConnector(x, t, Failed(th.connectAt.lifted)), c.mu)
    else Out(NextAttempt(c, x, t), None)
  }

  function CallStep(c: Context, x: Tunnel, t: nat, e: CallEvent): Out
    requires CallEnabled(c, x, t, e)
  {
    var th := x.threads[t];
    var wg := CallProtocol(th) == WireGuard;
    match e
    case Begin(refused) =>
      if refused || (wg && x.wg.Some?) then CallFailed(c, x, t)
      else if !wg && x.entry.Some? then
        // already active: an error for the user, something to wait for in a retry
        if th.Connector? then CallFailed(c, x, t) else Out(MoveRetrier(x, t, Waiting), None)
      else
        var y := if wg then x.(wg := Some(WgConnecting)) else x.(entry := Some(Reserved(t)));
        if th.Connector? then Out(MoveConnector(y, t, InConnect(th.connectAt.lifted)), c.mu)
        else Out(MoveRetrier(y, t, Connecting(th.retryAt.proto)), c.mu)
    case Finish(ok, seed, pass) =>
      if !ok then CallFailed(c, if wg then x.(wg := None) else x.(entry := None), t)
      else if wg then
        var y := x.(wg := Some(WgConnected(pass)));
        if th.Connector? then Out(MoveConnector(y, t, Settling), c.mu) else Out(MoveRetrier(y, t, Ending), None)
      else
        var y := x.(entry := Some(x.entry.value.(launcher := None, remote := seed)));
        if th.Connector? then Out(End(y, t), None) else Out(MoveRetrier(y, t, Waiting), None)
  }

  /** Cancels the sequence t, if it still runs. */
  function Cancel(x: Tunnel, t: nat): Tunnel {
    if t in x.threads && x.threads[t].Retrier? then Put(x, t, x.threads[t].(cancelled := true)) else x
  }

  /** Cancels the registered retry sequence, if any. */
  function CancelRetry(x: Tunnel): Tunnel {
    if x.retry.None? then x else Cancel(x.(retry := None), x.retry.value)
  }

  predicate DisconnectEnabled(c: Context, x: Tunnel, t: nat, e: DisconnectEvent) {
    match e
    case AcquireToStop => t == c.id && c.mu.None?
    case Clear => DisconnectorAt(x, t, Clearing)
    case Stop => DisconnectorAt(x, t, Stopping)
    case WgStopped => DisconnectorAt(x, t, StoppingWg)
    case Done => DisconnectorAt(x, t, Finishing)
  }

  function DisconnectStep(c: Context, x: Tunnel, t: nat, e: DisconnectEvent): Out
    requires DisconnectEnabled(c, x, t, e)
  {
    match e
    case AcquireToStop => Out(Put(CancelRetry(x), t, Disconnector(Clearing)), Some(t))
    case Clear => Out(Put(x.(slot := DisconnectSlot(x.slot)), t, Disconnector(Stopping)), c.mu)
    case Stop =>
      if x.entry.Some? then
        Out(Put(x.(entry := Some(x.entry.value.(toldToExit := true))), t, Disconnector(Finishing)), c.mu)
      else if LiveWg(x) then Out(Put(x.(wg := Some(WgStopping)), t, Disconnector(StoppingWg)), c.mu)
      else Out(Put(x, t, Disconnector(Finishing)), c.mu)
    case WgStopped => Out(Put(x.(wg := None), t, Disconnector(Finishing)), c.mu)
    case Done => Out(End(CancelRetry(x), t), None)
  }

  predicate RetryEnabled(c: Context, x: Tunnel, t: nat, e: RetryEvent) {
    if e.HealthCheck? then t == c.id && x.wg.Some? && Auto(x.slot)
    else
      && t in x.threads && x.threads[t].Retrier?
      && var r := x.threads[t];
      match e
      case HealthCheck => false
      case Register => r.retryAt.Notified?
      case Hold => r.retryAt.Registered?
      case Replace => r.retryAt.Replacing?
      case Leave => (r.retryAt.Backoff? || r.retryAt.Attempting?) && r.cancelled
      case Fire => r.retryAt.Backoff? && !r.cancelled
      case OpenRetryWindow(_) => r.retryAt.Attempting? && HasHosts(x.slot)
      case CloseRetryWindow(_) => r.retryAt.Resolving?
      case Enter => (r.retryAt.Attempting? || r.retryAt.Queued?) && c.mu.None?
      case Check => r.retryAt.Checking?
      case Connected =>
        r.retryAt.Waiting? && x.entry.Some? && x.entry.value.connected && InActiveRemotes(x.entry.value)
      case Vanished => r.retryAt.Waiting? && x.entry.None?
      case Timeout => r.retryAt.Waiting?
      case Panic => Looping(r.retryAt)
      case Release => r.retryAt.Ending?
  }

  function RetryStep(c: Context, x: Tunnel, t: nat, e: RetryEvent): Out
    requires RetryEnabled(c, x, t, e)
  {
    match e
    case HealthCheck => Out(Put(x, t, Retrier(Notified, false, 0)), c.mu)
    case Register => Out(MoveRetrier(x.(retry := Some(t)), t, Registered(x.retry)), c.mu)
    case Hold => Out(MoveRetrier(x.(slot := HoldSlot(x.slot)), t, Replacing(x.threads[t].retryAt.earlier)), c.mu)
    case Replace =>
      var earlier := x.threads[t].retryAt.earlier;
      Out(NextAttempt(c, if earlier.Some? && earlier.value != t then Cancel(x, earlier.value) else x, t), c.mu)
    case Leave => Out(MoveRetrier(x, t, Ending), c.mu)
    case Fire =>
      // a stale WireGuard tunnel that is still up is taken down first
      Out(MoveRetrier(if LiveWg(x) then x.(wg := None) else x, t, Attempting), c.mu)
    case OpenRetryWindow(resolvers) =>
      Out(MoveRetrier(x.(slot := OpenWindowSlot(x.slot, resolvers)), t, Resolving), c.mu)
    case CloseRetryWindow(answers) =>
      Out(MoveRetrier(x.(slot := StoreResolvedSlot(CloseWindowSlot(x.slot), answers)), t, Queued), c.mu)
    case Enter => Out(MoveRetrier(x, t, Checking), Some(t))
    case Check =>
      if !Auto(x.slot) || !Wanted(x.slot) then Out(MoveRetrier(x, t, Ending), None)
      else Out(MoveRetrier(x, t, Calling(if x.slot.wgConfig.Some? then WireGuard else OpenVPN)), c.mu)
    case Connected => Out(MoveRetrier(x, t, Ending), c.mu)
    case Vanished => Out(NextAttempt(c, x, t), c.mu)
    case Timeout =>
      // the stuck process is asked to exit, as a user Disconnect would
      var y := if x.entry.Some? then x.(entry := Some(x.entry.value.(toldToExit := true))) else x;
      Out(NextAttempt(c, y, t), c.mu)
    case Panic => Out(MoveRetrier(x, t, Ending), c.mu)
    case Release =>
      var y := x.(retry := if x.retry == Some(t) then None else x.retry,
                  slot := ReleaseSlot(x.slot, c.killSwitch, IsUp(x)));
      Out(End(y, t), c.mu)
  }

  predicate OvpnEnabled(x: Tunnel, e: OvpnEvent) {
    && x.entry.Some?
    && match e
       case MgmtConnected(_) => x.entry.value.launcher.None? && x.entry.value.leaving.None?
       case MgmtOther(_) => x.entry.value.launcher.None? && x.entry.value.leaving.None?
       case InterfaceKnown(iface) => x.entry.value.leaving.None? && iface != ""
       case ActiveCallback => x.entry.value.callbacks > 0
  }

  function OvpnStep(x: Tunnel, e: OvpnEvent): Tunnel
    requires OvpnEnabled(x, e)
  {
    var v := x.entry.value;
    match e
    case MgmtConnected(addr) =>
      var w := v.(connected := true, remote := if addr != "" then addr else v.remote);
      x.(entry := Some(if v.connected then w else w.(active := true, callbacks := v.callbacks + 1)))
    case MgmtOther(state) =>
      // progress lines (WAIT, AUTH, ...) leave CONNECTED alone
      x.(entry := Some(v.(connected := v.connected && state.Progress?)))
    case InterfaceKnown(iface) =>
      var again := if v.active && v.iface == "" then 1 else 0;
      x.(entry := Some(v.(iface := iface, callbacks := v.callbacks + again)))
    case ActiveCallback =>
      x.(entry := Some(v.(callbacks := v.callbacks - 1)), slot := if LiveEntry(v) then SettleSlot(x.slot) else x.slot)
  }

  /** NotifyTunnelDied: a retry sequence if auto-reconnect is on, else nothing. */
  function Notify(x: Tunnel, t: nat): Tunnel {
    if Auto(x.slot) then Put(x, t, Retrier(Notified, false, 0)) else End(x, t)
  }

  predicate TearEnabled(c: Context, x: Tunnel, t: nat, e: TearEvent) {
    match e
    case BeginTear =>
      t == c.id && x.entry.Some? && x.entry.value.launcher.None? && x.entry.value.leaving.None? && x.entry.value.callbacks == 0
    case OnDying => TeardownAt(x, t, Decided) && x.threads[t].died
    case Remove => TeardownAt(x, t, Dying) || (TeardownAt(x, t, Decided) && !x.threads[t].died)
    case Report => TeardownAt(x, t, Removed)
    case OnDied => TeardownAt(x, t, Reported) && x.threads[t].died
    case Forget => TeardownAt(x, t, Undying)
    case NotifyDeath => TeardownAt(x, t, Forgotten)
  }

  function TearStep(c: Context, x: Tunnel, t: nat, e: TearEvent): Tunnel
    requires TearEnabled(c, x, t, e)
  {
    match e
    case BeginTear =>
      var v := x.entry.value;
      Put(x.(entry := Some(v.(leaving := Some(t)))), t, Teardown(v.active && !v.toldToExit, Decided))
    case OnDying => MoveTeardown(x.(slot := DyingSlot(x.slot, c.killSwitch)), t, Dying)
    case Remove => MoveTeardown(x.(entry := None), t, Removed)
    case Report =>
      var y := if x.entry.Some? then x else x.(slot := GoneSlot(x.slot, c.killSwitch));
      if x.threads[t].died then MoveTeardown(y, t, Reported) else End(y, t)
    case OnDied => MoveTeardown(x.(slot := DiedSlot(x.slot)), t, Undying)
    case Forget => MoveTeardown(x.(slot := ForgetOrHoldSlot(x.slot, c.killSwitch, OpenVPN)), t, Forgotten)
    case NotifyDeath => Notify(x, t)
  }

  predicate WgEnabled(c: Context, x: Tunnel, t: nat, e: WgEvent) {
    match e
    case Die => t == c.id && LiveWg(x)
    case Vanish => WgDeathAt(x, t, Down)
    case ForgetWg => WgDeathAt(x, t, Gone)
    case NotifyWg => WgDeathAt(x, t, Handled)
  }

  function WgStep(c: Context, x: Tunnel, t: nat, e: WgEvent): Tunnel
    requires WgEnabled(c, x, t, e)
  {
    match e
    case Die => Put(x.(wg := Some(WgStopping)), t, WgDeath(Down))
    case Vanish => Put(x.(wg := None), t, WgDeath(Gone))
    case ForgetWg => Put(x.(slot := ForgetOrHoldSlot(x.slot, c.killSwitch, WireGuard)), t, WgDeath(Handled))
    case NotifyWg => Notify(x, t)
  }

  predicate StepEnabled(c: Context, x: Tunnel, t: nat, e: Step) {
    match e
    case User(connect) => ConnectEnabled(c, x, t, connect)
    case Call(call) => CallEnabled(c, x, t, call)
    case UserStop(disconnect) => DisconnectEnabled(c, x, t, disconnect)
    case Retry(retry) => RetryEnabled(c, x, t, retry)
    case Ovpn(ovpn) => OvpnEnabled(x, ovpn)
    case Tear(tear) => TearEnabled(c, x, t, tear)
    case Wg(wg) => WgEnabled(c, x, t, wg)
  }

  function TunnelStep(c: Context, x: Tunnel, t: nat, e: Step): Out
    requires StepEnabled(c, x, t, e)
  {
    match e
    case User(connect) => ConnectStep(c, x, t, connect)
    case Call(call) => CallStep(c, x, t, call)
    case UserStop(disconnect) => DisconnectStep(c, x, t, disconnect)
    case Retry(retry) => RetryStep(c, x, t, retry)
    case Ovpn(ovpn) => Out(OvpnStep(x, ovpn), c.mu)
    case Tear(tear) => Out(TearStep(c, x, t, tear), c.mu)
    case Wg(wg) => Out(WgStep(c, x, t, wg), c.mu)
  }

  ghost predicate Enabled(s: Sys, e: Event) {
    match e
    case OnPolicy(change) => IsSnapshot(s, change.live)
    case On(n, t, step) => StepEnabled(ContextOf(s), TunnelAt(s, n), t, step)
  }

  /** What a policy step does to one tunnel's slot. */
  function PolicySlot(x: Slot, e: PolicyEvent, listed: Option<Pass>): Slot {
    match e
    case ApplyRules(_) => ApplySlot(x, listed)
    case SetKillSwitch(on, _, loaded) => SetKillSwitchSlot(x, on, listed, loaded)
  }

  function PolicyStep(s: Sys, e: PolicyEvent): Sys {
    s.(killSwitch := if e.SetKillSwitch? && e.loaded then e.on else s.killSwitch,
       tunnels := map n | n in s.tunnels ::
         s.tunnels[n].(slot := PolicySlot(s.tunnels[n].slot, e, LiveAt(e.live, n))))
  }

  ghost function Next(s: Sys, e: Event): Sys
    requires Enabled(s, e)
  {
    match e
    case OnPolicy(change) => PolicyStep(s, change)
    case On(n, t, step) =>
      var out := TunnelStep(ContextOf(s), TunnelAt(s, n), t, step);
      s.(tunnels := s.tunnels[n := out.tunnel], mu := out.mu, nextId := s.nextId + 1)
  }

  // ---- runs ----

  /** Every event of the run is enabled when its turn comes. */
  ghost predicate IsRun(s: Sys, run: seq<Event>)
    decreases |run|
  {
    run == [] || (Enabled(s, run[0]) && IsRun(Next(s, run[0]), run[1..]))
  }

  ghost function After(s: Sys, run: seq<Event>): Sys
    requires IsRun(s, run)
    decreases |run|
  {
    if run == [] then s else After(Next(s, run[0]), run[1..])
  }

  /** A policy or re-apply step changes only slots: blocks of live tunnels, or all of them, and caches. */
  lemma PolicyFrame(s: Sys, e: PolicyEvent, n: Name)
    requires Enabled(s, OnPolicy(e))
    ensures var x, y := TunnelAt(s, n), TunnelAt(PolicyStep(s, e), n);
      && y == x.(slot := y.slot)
      && y.slot == PolicySlot(x.slot, e, LiveAt(e.live, n))
      && ListedRight(x, LiveAt(e.live, n))
  {
    assert ListedRight(TunnelAt(s, n), LiveAt(e.live, n));
  }
}
