// When a failed connect leaves the blocks as they were: what it lifted comes back
// and what it only passed through stays as it is, unless something of the tunnel's
// earlier life is still in flight. Exactly which things those are.
module ConnectAttempt {
  import opened Common
  import opened Rules
  import opened KillSwitch
  import opened HelperRuns
  import opened Frames
  import opened HelperInvariants
  import opened HoldAccounting

  // ---- what can be in flight ----

  /** A process or engine that is gone from the manager's table and has still to be forgotten or held. */
  predicate Unforgotten(th: Thread) {
    || (th.Teardown? && th.died && (th.tearAt.Removed? || th.tearAt.Reported? || th.tearAt.Undying?))
    || (th.WgDeath? && !th.deathAt.Handled?)
  }

  /** A death whose notice the reconnect monitor has still to get. */
  predicate Unnotified(th: Thread) {
    (th.Teardown? && th.tearAt.Forgotten?) || (th.WgDeath? && th.deathAt.Handled?)
  }

  /** A process that ended has its final status still to report. */
  predicate ReportsAt(x: Tunnel, u: nat) { TeardownAt(x, u, Removed) }

  /** The retry sequence can get to another attempt. */
  predicate MayCall(th: Thread, maxAttempts: nat) {
    && th.Retrier?
    && match th.retryAt
       case Ending => false
       case Backoff => !th.cancelled
       case Replacing(_) => !th.cancelled && (maxAttempts == 0 || th.attempt + 1 <= maxAttempts)
       case Waiting => !th.cancelled && (maxAttempts == 0 || th.attempt + 1 <= maxAttempts)
       case _ => true
  }

  predicate BeforeRollback(stage: ConnectStage) {
    stage.ConfigCached? || stage.Ready? || stage.InConnect? || stage.Failed?
  }

  /** Connect a is a WireGuard one that will put the previous request back. */
  predicate PutsBack(x: Tunnel, a: nat) {
    a in x.threads && x.threads[a].Connector? && x.threads[a].proto.WireGuard? && BeforeRollback(x.threads[a].connectAt)
  }

  /** Auto-reconnect is on once connect a has failed; of an OpenVPN connect, in its process. */
  predicate AutoLater(x: Tunnel, a: nat) {
    if PutsBack(x, a) then x.threads[a].prevAuto == Some(true) else Auto(x.slot)
  }

  predicate AutoEver(x: Tunnel, a: nat) { Auto(x.slot) || AutoLater(x, a) }

  predicate WantedEver(x: Tunnel, a: nat) { Wanted(x.slot) || (PutsBack(x, a) && x.threads[a].prevCfg.Some?) }

  /** A retry sequence would call the OpenVPN manager. */
  predicate CallsOvpn(x: Slot) { Auto(x) && x.wgConfig.None? && x.ovpnConfig.Some? }

  /** Once connect a has let go of connectMu, a retry sequence would call the WireGuard manager. */
  predicate CallsEngineLater(x: Tunnel, a: nat) {
    if PutsBack(x, a) then x.threads[a].prevAuto == Some(true) && x.threads[a].prevCfg.Some? else Auto(x.slot) && x.slot.wgConfig.Some?
  }

  /** A connect from its lift on: what it found. */
  datatype Attempt = Attempt(
    a: nat,              // its thread
    proto: Protocol,
    killSwitch: bool,
    blocked: bool,       // the tunnel was blocked
    lifted: bool,        // it took a pending hold
    first: nat,          // threads from here on are younger than the lift
    maxAttempts: nat,
    wakes: bool)         // the machine may wake while it runs

  /** Thread u, an earlier death, can take the tunnel's hold or block away from the attempt. */
  predicate DeathDisturbs(b: Attempt, x: Tunnel, u: nat)
    requires u in x.threads
  {
    var th := x.threads[u];
    || (Unforgotten(th) &&
         (AutoEver(x, b.a) || (b.killSwitch && !b.blocked && (b.lifted || WantedEver(x, b.a))) ||
          (b.blocked && b.proto.OpenVPN? && !Wanted(x.slot))))
    || (Unnotified(th) && AutoEver(x, b.a))
    || (ReportsAt(x, u) && b.lifted && !b.blocked && !x.slot.dying)
  }

  /** Thread u, an earlier retry sequence, can hold, block or hold up the tunnel. */
  predicate SequenceDisturbs(b: Attempt, x: Tunnel, u: nat)
    requires u in x.threads && x.threads[u].Retrier?
  {
    var th := x.threads[u];
    || !HasHold(th)
    || (b.killSwitch && !b.blocked && (if b.lifted then AutoLater(x, b.a) else AutoEver(x, b.a)))
    || (b.lifted && b.proto.OpenVPN? && CallsOvpn(x.slot) && MayCall(th, b.maxAttempts))
    || (b.wakes && CallsEngineLater(x, b.a) && MayCall(th, b.maxAttempts))
  }

  predicate DisturbedBy(b: Attempt, x: Tunnel, u: nat) {
    u in x.threads &&
      match x.threads[u]
      case Retrier(_, _, _) => SequenceDisturbs(b, x, u)
      case Teardown(_, _) => DeathDisturbs(b, x, u)
      case WgDeath(_) => DeathDisturbs(b, x, u)
      case _ => false
  }

  /** Something of the tunnel's earlier life will not leave a failing attempt alone. */
  ghost predicate Disturbed(b: Attempt, x: Tunnel) {
    || (exists u :: DisturbedBy(b, x, u))
    || (x.slot.dying && b.lifted && b.proto.OpenVPN?)
    || WakeDisturbs(b, x)
  }

  /** A wake while the engine starts begins a sequence, for the request itself asks for auto-reconnect. */
  predicate WakeDisturbs(b: Attempt, x: Tunnel) { b.wakes && b.proto.WireGuard? && Auto(x.slot) }

  // ---- an attempt that nothing disturbs ----

  predicate Sensible(b: Attempt) {
    (b.blocked ==> b.lifted) && (b.lifted ==> b.killSwitch) && b.a < b.first
  }

  /** The attempt will still restore the block by itself. */
  predicate Due(b: Attempt, x: Tunnel) {
    && b.a in x.threads && x.threads[b.a].Connector?
    && var stage := x.threads[b.a].connectAt;
       stage.Failed? || stage.Restoring? || (b.proto.WireGuard? && (stage.Ready? || stage.InConnect?))
  }

  predicate RollsBack(b: Attempt, x: Tunnel) {
    && b.a in x.threads && x.threads[b.a].Connector?
    && (x.threads[b.a].connectAt.Failed? || x.threads[b.a].connectAt.Restoring?)
  }

  /** The pending hold stands for what was lifted, as long as it is there. */
  predicate Ledger(b: Attempt, x: Tunnel) {
    && x.slot.held == 0
    && (b.proto.WireGuard? && x.slot.pending ==> b.a in x.threads)
    && (if !b.lifted then !x.slot.pending && x.slot.blocked.None?
        else if !b.blocked then
          x.slot.blocked.None? && (x.slot.pending ==> x.slot.through) && (x.slot.dying ==> b.proto.WireGuard?)
        else
          !x.slot.through && (b.proto.OpenVPN? ==> !x.slot.dying) && (x.slot.pending || x.slot.blocked.Some? || Due(b, x)))
  }

  predicate StageOk(b: Attempt, x: Tunnel, stage: ConnectStage) {
    && (b.lifted && !b.blocked ==> x.slot.pending)
    && (b.wakes && b.proto.WireGuard? && (stage.Ready? || stage.InConnect?) ==> !Auto(x.slot))
    && match stage
       case Ready(lifted) => lifted == b.lifted
       case InConnect(lifted) => lifted == b.lifted
       case Failed(lifted) => lifted == b.lifted
       case Restoring => b.lifted
       case _ => false
  }

  predicate DeathOk(b: Attempt, x: Tunnel, th: Thread) {
    && (Unforgotten(th) ==>
         && !AutoEver(x, b.a)
         && (b.killSwitch && !b.blocked ==> !b.lifted && !WantedEver(x, b.a))
         && (b.blocked && b.proto.OpenVPN? ==> Wanted(x.slot) || x.slot.blocked.Some? || RollsBack(b, x)))
    && (Unnotified(th) ==> !AutoEver(x, b.a))
  }

  predicate TearingOk(b: Attempt, x: Tunnel, u: nat, died: bool, stage: TearStage) {
    if stage.Decided? then !died && b.a !in x.threads && u >= b.first
    else !stage.Dying? && (stage.Removed? && b.lifted && !b.blocked ==> x.slot.dying || b.a !in x.threads)
  }

  predicate SequenceOk(b: Attempt, x: Tunnel, th: Thread)
    requires th.Retrier?
  {
    && HasHold(th)
    && (th.retryAt.Checking? || th.retryAt.Calling? || th.retryAt.Connecting? ==> b.a !in x.threads)
    && (b.killSwitch && !b.blocked ==> !AutoLater(x, b.a) && (!b.lifted ==> !AutoEver(x, b.a)))
    && (b.lifted && b.proto.OpenVPN? ==>
         && (CallsOvpn(x.slot) ==> !MayCall(th, b.maxAttempts))
         && (th.retryAt.Calling? || th.retryAt.Connecting? ==> th.retryAt.proto.WireGuard?))
    && (b.wakes ==>
         && (CallsEngineLater(x, b.a) ==> !MayCall(th, b.maxAttempts))
         && (th.retryAt.Calling? || th.retryAt.Connecting? ==> th.retryAt.proto.OpenVPN?))
  }

  /** Connects and disconnects: the attempt itself, or some that do not act. */
  predicate UserOk(b: Attempt, x: Tunnel, u: nat) {
    u in x.threads ==>
      match x.threads[u]
      case Connector(proto, _, _, _, stage, _, _) => if u == b.a then proto == b.proto && StageOk(b, x, stage) else Waits(stage)
      case Disconnector(stage) => stage.Clearing? && u != b.a
      case _ => u != b.a
  }

  predicate DeathsOk(b: Attempt, x: Tunnel, u: nat) {
    u in x.threads ==>
      match x.threads[u]
      case Teardown(died, stage) => TearingOk(b, x, u, died, stage) && DeathOk(b, x, x.threads[u])
      case WgDeath(_) => DeathOk(b, x, x.threads[u])
      case _ => true
  }

  predicate SequencesOk(b: Attempt, x: Tunnel, u: nat) {
    u in x.threads && x.threads[u].Retrier? ==> SequenceOk(b, x, x.threads[u])
  }

  /** Thread u is the attempt, its process, or something that does not disturb it. */
  predicate ThreadOk(b: Attempt, x: Tunnel, u: nat) { UserOk(b, x, u) && DeathsOk(b, x, u) && SequencesOk(b, x, u) }

  /** Nothing of the tunnel has come up, and while the attempt runs its process is not launched. */
  predicate NotUp(b: Attempt, x: Tunnel) {
    && (x.entry.Some? ==> !x.entry.value.active && (b.a in x.threads ==> x.entry.value.launcher.Some?))
    && (x.wg.Some? ==> x.wg.value.WgConnecting? && (b.wakes ==> StartsEngine(b, x)))
  }

  /** The engine that starts is the attempt's own, and no wake begins a sequence for it. */
  predicate StartsEngine(b: Attempt, x: Tunnel) {
    b.proto.WireGuard? && !Auto(x.slot) && b.a in x.threads && x.threads[b.a].Connector? && x.threads[b.a].connectAt.InConnect?
  }

  /** What a step of thread t starts from. */
  predicate Before(b: Attempt, c: Context, x: Tunnel, t: nat) {
    && Sensible(b) && c.killSwitch == b.killSwitch && c.maxAttempts == b.maxAttempts && b.first <= c.id
    && SlotOk(c.killSwitch, x.slot) && Ledger(b, x) && NotUp(b, x)
    && ThreadOk(b, x, t) && ThreadOk(b, x, b.a) && EntryFacts(x, t)
    && LockFacts(c.mu, c.id, x, t) && LockFacts(c.mu, c.id, x, b.a)
  }

  /** Thread u, or what carries the pending hold. */
  predicate CarriedBy(b: Attempt, x: Tunnel, u: nat) {
    x.slot.pending ==> b.a in x.threads || x.entry.Some? || (u >= b.first && ReportsAt(x, u))
  }

  /** From x to y nothing becomes wanted, and no reason for leaving the attempt alone goes. */
  predicate Settles(b: Attempt, x: Tunnel, y: Tunnel) {
    && (AutoEver(y, b.a) ==> AutoEver(x, b.a)) && (AutoLater(y, b.a) ==> AutoLater(x, b.a))
    && (WantedEver(y, b.a) ==> WantedEver(x, b.a))
    && (b.lifted && b.proto.OpenVPN? && CallsOvpn(y.slot) ==> CallsOvpn(x.slot))
    && (CallsEngineLater(y, b.a) ==> CallsEngineLater(x, b.a))
    && (b.blocked && b.proto.OpenVPN? && (Wanted(x.slot) || x.slot.blocked.Some? || RollsBack(b, x)) ==>
          Wanted(y.slot) || y.slot.blocked.Some? || RollsBack(b, y))
    && (b.lifted && !b.blocked && x.slot.dying ==> y.slot.dying)
    && (b.a !in x.threads ==> b.a !in y.threads)
  }

  /** Thread u of y is that of x, perhaps cancelled, or no death and no sequence. */
  predicate SameThread(x: Tunnel, y: Tunnel, u: nat) {
    u in y.threads ==>
      match y.threads[u]
      case Connector(_, _, _, _, _, _, _) => true
      case Disconnector(_) => true
      case Retrier(stage, cancelled, attempt) =>
        u in x.threads && x.threads[u].Retrier? && x.threads[u].retryAt == stage && x.threads[u].attempt == attempt &&
        (x.threads[u].cancelled ==> cancelled)
      case _ => u in x.threads && x.threads[u] == y.threads[u]
  }

  /** Settled, for nothing that counts has changed. */
  lemma SameSettles(b: Attempt, x: Tunnel, y: Tunnel)
    requires SameAt(x, y, b.a) && (x.slot.blocked.Some? ==> y.slot.blocked.Some?) && (x.slot.dying ==> y.slot.dying)
    requires y.slot.wgConfig == x.slot.wgConfig && y.slot.ovpnConfig == x.slot.ovpnConfig && y.slot.auto == x.slot.auto
    ensures Settles(b, x, y)
  {}

  lemma SameThreadOk(b: Attempt, x: Tunnel, y: Tunnel, u: nat)
    requires Settles(b, x, y) && SameThread(x, y, u) && DeathsOk(b, x, u) && SequencesOk(b, x, u)
    ensures DeathsOk(b, y, u) && SequencesOk(b, y, u)
  {}

  /** No second connect or disconnect of the tunnel acts, the attempt does not succeed, and the machine wakes only if it may. */
  predicate Fails(wakes: bool, x: Tunnel, t: nat, step: Step) {
    match step
    case User(e) => !e.CacheRequest?
    case Call(e) => e.Finish? && e.ok && t in x.threads && InsideCall(x.threads[t]) ==> CallProtocol(x.threads[t]) == OpenVPN
    case UserStop(e) => !e.Clear?
    case Retry(e) => e.HealthCheck? ==> wakes
    case Ovpn(e) => !e.MgmtConnected?
    case _ => true
  }

  /** Of the connects, the attempt rolls back and others wait. */
  lemma UserStage(b: Attempt, c: Context, x: Tunnel, t: nat, e: ConnectEvent)
    requires ConnectEnabled(c, x, t, e) && Fails(b.wakes, x, t, User(e)) && Before(b, c, x, t)
    ensures if t == b.a then e.Uncache? || e.RestoreBlock? else OnlyWaits(e)
  {
    hide DeathsOk, SequencesOk, Ledger, NotUp;
  }

  lemma WaitingKeeps(b: Attempt, c: Context, x: Tunnel, t: nat, e: ConnectEvent)
    requires ConnectEnabled(c, x, t, e) && t != b.a && OnlyWaits(e)
    ensures var y := ConnectStep(c, x, t, e).tunnel;
      Settles(b, x, y) && (Ledger(b, x) && NotUp(b, x) ==> Ledger(b, y) && NotUp(b, y))
  {
    UserFrame(c, x, t, e, b.a);
    WaitingFrame(c, x, t, e);
    hide ConnectEnabled, ConnectStep;
  }

  lemma UncacheLedger(b: Attempt, c: Context, x: Tunnel)
    requires ConnectEnabled(c, x, b.a, Uncache) && Before(b, c, x, b.a)
    ensures Ledger(b, ConnectStep(c, x, b.a, Uncache).tunnel) && NotUp(b, ConnectStep(c, x, b.a, Uncache).tunnel)
  {
    hide DeathsOk, SequencesOk, EntryFacts, LockFacts;
  }

  lemma RestoreLedger(b: Attempt, c: Context, x: Tunnel)
    requires ConnectEnabled(c, x, b.a, RestoreBlock) && Before(b, c, x, b.a)
    ensures Ledger(b, ConnectStep(c, x, b.a, RestoreBlock).tunnel) && NotUp(b, ConnectStep(c, x, b.a, RestoreBlock).tunnel)
  {
    hide DeathsOk, SequencesOk, EntryFacts, LockFacts;
  }

  lemma UserLedger(b: Attempt, c: Context, x: Tunnel, t: nat, e: ConnectEvent)
    requires ConnectEnabled(c, x, t, e) && Fails(b.wakes, x, t, User(e)) && Before(b, c, x, t)
    ensures Ledger(b, ConnectStep(c, x, t, e).tunnel) && NotUp(b, ConnectStep(c, x, t, e).tunnel)
  {
    UserStage(b, c, x, t, e);
    hide ConnectEnabled, ConnectStep, Ledger, NotUp, ThreadOk, Settles;
    if e.Uncache? {
      UncacheLedger(b, c, x);
    } else if e.RestoreBlock? {
      RestoreLedger(b, c, x);
    } else {
      WaitingKeeps(b, c, x, t, e);
    }
  }

  /** A connect that waits leaves the others, and what the attempt goes by. */
  lemma WaitingUsers(b: Attempt, c: Context, x: Tunnel, t: nat, e: ConnectEvent, u: nat)
    requires ConnectEnabled(c, x, t, e) && t != b.a && OnlyWaits(e) && UserOk(b, x, u)
    ensures UserOk(b, ConnectStep(c, x, t, e).tunnel, u)
  {
    WaitingFrame(c, x, t, e);
    if u != t { UserFrame(c, x, t, e, u); }
    hide ConnectEnabled, ConnectStep;
  }

  lemma RollbackUsers(b: Attempt, c: Context, x: Tunnel, e: ConnectEvent, u: nat)
    requires ConnectEnabled(c, x, b.a, e) && Before(b, c, x, b.a) && (e.Uncache? || e.RestoreBlock?) && UserOk(b, x, u)
    ensures UserOk(b, ConnectStep(c, x, b.a, e).tunnel, u)
  {
    hide DeathsOk, SequencesOk, EntryFacts, LockFacts, NotUp, Ledger;
    if u != b.a {
      UserFrame(c, x, b.a, e, u);
      hide ConnectEnabled, ConnectStep;
    }
  }

  lemma UserUsers(b: Attempt, c: Context, x: Tunnel, t: nat, e: ConnectEvent, u: nat)
    requires ConnectEnabled(c, x, t, e) && Fails(b.wakes, x, t, User(e)) && Before(b, c, x, t)
    requires ThreadOk(b, x, u)
    ensures UserOk(b, ConnectStep(c, x, t, e).tunnel, u)
  {
    UserStage(b, c, x, t, e);
    hide ConnectEnabled, ConnectStep, UserOk, DeathsOk, SequencesOk, Ledger, NotUp;
    if t == b.a { RollbackUsers(b, c, x, e, u); } else { WaitingUsers(b, c, x, t, e, u); }
  }

  lemma UncacheSettles(b: Attempt, c: Context, x: Tunnel)
    requires ConnectEnabled(c, x, b.a, Uncache) && Before(b, c, x, b.a)
    ensures Settles(b, x, ConnectStep(c, x, b.a, Uncache).tunnel)
  {
    hide DeathsOk, SequencesOk, EntryFacts, LockFacts, NotUp;
  }

  lemma RestoreSettles(b: Attempt, c: Context, x: Tunnel)
    requires ConnectEnabled(c, x, b.a, RestoreBlock) && Before(b, c, x, b.a)
    ensures Settles(b, x, ConnectStep(c, x, b.a, RestoreBlock).tunnel)
  {
    hide DeathsOk, SequencesOk, EntryFacts, LockFacts, NotUp;
  }

  lemma UserSettles(b: Attempt, c: Context, x: Tunnel, t: nat, e: ConnectEvent)
    requires ConnectEnabled(c, x, t, e) && Fails(b.wakes, x, t, User(e)) && Before(b, c, x, t)
    ensures Settles(b, x, ConnectStep(c, x, t, e).tunnel)
  {
    UserStage(b, c, x, t, e);
    hide ConnectEnabled, ConnectStep, Ledger, NotUp, ThreadOk, Settles;
    if e.Uncache? {
      UncacheSettles(b, c, x);
    } else if e.RestoreBlock? {
      RestoreSettles(b, c, x);
    } else {
      WaitingKeeps(b, c, x, t, e);
    }
  }

  lemma UserSame(b: Attempt, c: Context, x: Tunnel, t: nat, e: ConnectEvent, u: nat)
    requires ConnectEnabled(c, x, t, e) && Fails(b.wakes, x, t, User(e)) && u != t
    ensures SameThread(x, ConnectStep(c, x, t, e).tunnel, u)
  {}

  lemma UserOwn(b: Attempt, c: Context, x: Tunnel, t: nat, e: ConnectEvent)
    requires ConnectEnabled(c, x, t, e) && Fails(b.wakes, x, t, User(e)) && Before(b, c, x, t)
    ensures DeathsOk(b, ConnectStep(c, x, t, e).tunnel, t) && SequencesOk(b, ConnectStep(c, x, t, e).tunnel, t)
  {}

  lemma UserOthers(b: Attempt, c: Context, x: Tunnel, t: nat, e: ConnectEvent, u: nat)
    requires ConnectEnabled(c, x, t, e) && Fails(b.wakes, x, t, User(e)) && Before(b, c, x, t) && ThreadOk(b, x, u)
    ensures DeathsOk(b, ConnectStep(c, x, t, e).tunnel, u) && SequencesOk(b, ConnectStep(c, x, t, e).tunnel, u)
  {
    if u == t {
      UserOwn(b, c, x, t, e);
    } else {
      UserSettles(b, c, x, t, e);
      UserSame(b, c, x, t, e, u);
      SameThreadOk(b, x, ConnectStep(c, x, t, e).tunnel, u);
    }
  }

  lemma UserCarries(b: Attempt, c: Context, x: Tunnel, t: nat, e: ConnectEvent, u: nat)
    requires ConnectEnabled(c, x, t, e) && Fails(b.wakes, x, t, User(e)) && Before(b, c, x, t) && CarriedBy(b, x, u)
    ensures CarriedBy(b, ConnectStep(c, x, t, e).tunnel, u) || CarriedBy(b, ConnectStep(c, x, t, e).tunnel, t)
  {}

  /** Of the calls, the attempt's is of its own protocol and does not succeed, and a sequence's comes after it. */
  lemma CallKind(b: Attempt, c: Context, x: Tunnel, t: nat, e: CallEvent)
    requires CallEnabled(c, x, t, e) && Fails(b.wakes, x, t, Call(e)) && Before(b, c, x, t)
    ensures if t == b.a then x.threads[t].Connector? && x.threads[t].proto == b.proto
            else x.threads[t].Retrier? && b.a !in x.threads && HasHold(x.threads[t])
    ensures e.Finish? && e.ok ==> CallProtocol(x.threads[t]) == OpenVPN
  {
    hide DeathsOk, Ledger, NotUp, EntryFacts, LockFacts;
  }

  lemma BeginNotUp(b: Attempt, c: Context, x: Tunnel, t: nat, refused: bool)
    requires CallEnabled(c, x, t, Begin(refused)) && Before(b, c, x, t)
    ensures NotUp(b, CallStep(c, x, t, Begin(refused)).tunnel)
  {
    hide DeathsOk, Ledger, LockFacts, MayCall, EntryFacts;
  }

  lemma FinishNotUp(b: Attempt, c: Context, x: Tunnel, t: nat, e: CallEvent)
    requires e.Finish? && CallEnabled(c, x, t, e) && Fails(b.wakes, x, t, Call(e)) && Before(b, c, x, t)
    ensures NotUp(b, CallStep(c, x, t, e).tunnel)
  {
    hide DeathsOk, Ledger, LockFacts, MayCall;
  }

  lemma CallLedger(b: Attempt, c: Context, x: Tunnel, t: nat, e: CallEvent)
    requires CallEnabled(c, x, t, e) && Fails(b.wakes, x, t, Call(e)) && Before(b, c, x, t)
    ensures Ledger(b, CallStep(c, x, t, e).tunnel) && NotUp(b, CallStep(c, x, t, e).tunnel)
  {
    if e.Begin? { BeginNotUp(b, c, x, t, e.refused); } else { FinishNotUp(b, c, x, t, e); }
    CallKind(b, c, x, t, e);
    CallFrame(c, x, t, e, t + 1);
    CallerMoves(c, x, t, e);
    hide CallStep, NotUp, ThreadOk, EntryFacts, LockFacts, SameAt;
  }

  lemma CallUsers(b: Attempt, c: Context, x: Tunnel, t: nat, e: CallEvent, u: nat)
    requires CallEnabled(c, x, t, e) && Fails(b.wakes, x, t, Call(e)) && Before(b, c, x, t) && ThreadOk(b, x, u)
    ensures UserOk(b, CallStep(c, x, t, e).tunnel, u)
  {
    CallKind(b, c, x, t, e);
    CallerMoves(c, x, t, e);
    CallFrame(c, x, t, e, if u == t then t + 1 else u);
    if u == b.a == t { AttemptMoves(b, c, x, e); }
    hide CallStep, CallEnabled, DeathsOk, SequencesOk, Ledger, NotUp, EntryFacts, LockFacts;
  }

  /** The attempt remembers what it lifted. */
  lemma AttemptMoves(b: Attempt, c: Context, x: Tunnel, e: CallEvent)
    requires CallEnabled(c, x, b.a, e) && x.threads[b.a].Connector?
    ensures var y := CallStep(c, x, b.a, e).tunnel;
      b.a in y.threads && !y.threads[b.a].connectAt.Settling? ==>
        y.threads[b.a].connectAt.lifted == x.threads[b.a].connectAt.lifted && (y.threads[b.a].connectAt.InConnect? ==> e.Begin?)
  {}

  lemma CallSettles(b: Attempt, c: Context, x: Tunnel, t: nat, e: CallEvent)
    requires CallEnabled(c, x, t, e) && Fails(b.wakes, x, t, Call(e)) && Before(b, c, x, t)
    ensures Settles(b, x, CallStep(c, x, t, e).tunnel)
  {
    CallKind(b, c, x, t, e);
    CallFrame(c, x, t, e, if t == b.a then t + 1 else b.a);
    CallerMoves(c, x, t, e);
    hide CallStep, NotUp, Ledger, ThreadOk, EntryFacts, LockFacts;
  }

  lemma CallSame(b: Attempt, c: Context, x: Tunnel, t: nat, e: CallEvent, u: nat)
    requires CallEnabled(c, x, t, e) && Fails(b.wakes, x, t, Call(e)) && u != t
    ensures SameThread(x, CallStep(c, x, t, e).tunnel, u)
  {}

  /** How a calling sequence moves on. */
  lemma CallAdvances(c: Context, x: Tunnel, t: nat, e: CallEvent)
    requires CallEnabled(c, x, t, e) && x.threads[t].Retrier?
    ensures t in CallStep(c, x, t, e).tunnel.threads
    ensures var th, now := x.threads[t], CallStep(c, x, t, e).tunnel.threads[t];
      && now.Retrier? && HasHold(now) && MayCall(th, c.maxAttempts)
      && (Locked(now) ==> now.retryAt == Connecting(CallProtocol(th)))
  {}

  lemma CallOwn(b: Attempt, c: Context, x: Tunnel, t: nat, e: CallEvent)
    requires CallEnabled(c, x, t, e) && Fails(b.wakes, x, t, Call(e)) && Before(b, c, x, t)
    ensures DeathsOk(b, CallStep(c, x, t, e).tunnel, t) && SequencesOk(b, CallStep(c, x, t, e).tunnel, t)
  {
    CallKind(b, c, x, t, e);
    CallSettles(b, c, x, t, e);
    CallerMoves(c, x, t, e);
    if t != b.a { CallAdvances(c, x, t, e); }
    hide CallStep, Ledger, NotUp, EntryFacts, LockFacts, MayCall, AutoLater, AutoEver, CallsOvpn, CallsEngineLater, WantedEver;
  }

  lemma CallOthers(b: Attempt, c: Context, x: Tunnel, t: nat, e: CallEvent, u: nat)
    requires CallEnabled(c, x, t, e) && Fails(b.wakes, x, t, Call(e)) && Before(b, c, x, t) && ThreadOk(b, x, u)
    ensures DeathsOk(b, CallStep(c, x, t, e).tunnel, u) && SequencesOk(b, CallStep(c, x, t, e).tunnel, u)
  {
    if u == t {
      CallOwn(b, c, x, t, e);
    } else {
      CallSettles(b, c, x, t, e);
      CallSame(b, c, x, t, e, u);
      SameThreadOk(b, x, CallStep(c, x, t, e).tunnel, u);
    }
  }

  lemma CallCarries(b: Attempt, c: Context, x: Tunnel, t: nat, e: CallEvent, u: nat)
    requires CallEnabled(c, x, t, e) && Fails(b.wakes, x, t, Call(e)) && Before(b, c, x, t) && CarriedBy(b, x, u)
    ensures CarriedBy(b, CallStep(c, x, t, e).tunnel, u) || CarriedBy(b, CallStep(c, x, t, e).tunnel, t)
  {}

  lemma StopLedger(b: Attempt, c: Context, x: Tunnel, t: nat, e: DisconnectEvent)
    requires DisconnectEnabled(c, x, t, e) && Fails(b.wakes, x, t, UserStop(e)) && Before(b, c, x, t)
    ensures Ledger(b, DisconnectStep(c, x, t, e).tunnel) && NotUp(b, DisconnectStep(c, x, t, e).tunnel)
  {
    hide DeathsOk;
  }

  lemma StopUsers(b: Attempt, c: Context, x: Tunnel, t: nat, e: DisconnectEvent, u: nat)
    requires DisconnectEnabled(c, x, t, e) && Fails(b.wakes, x, t, UserStop(e)) && Before(b, c, x, t)
    requires ThreadOk(b, x, u) && LockFacts(c.mu, c.id, x, u) && EntryFacts(x, u)
    ensures UserOk(b, DisconnectStep(c, x, t, e).tunnel, u)
  {
    hide DeathsOk, SequencesOk;
  }

  /** No disconnect gets past its first step. */
  lemma StopKind(b: Attempt, c: Context, x: Tunnel, t: nat, e: DisconnectEvent)
    requires DisconnectEnabled(c, x, t, e) && Fails(b.wakes, x, t, UserStop(e)) && Before(b, c, x, t)
    ensures e.AcquireToStop? && t != b.a && b.a !in x.threads
  {
    hide DeathsOk, SequencesOk, Ledger, NotUp, EntryFacts;
  }

  lemma StopSettles(b: Attempt, c: Context, x: Tunnel, t: nat)
    requires DisconnectEnabled(c, x, t, AcquireToStop) && Before(b, c, x, t) && t != b.a && b.a !in x.threads
    ensures Settles(b, x, DisconnectStep(c, x, t, AcquireToStop).tunnel)
  {
    hide DeathsOk, SequencesOk, Ledger, NotUp, EntryFacts, LockFacts, UserOk;
  }

  lemma StopSame(c: Context, x: Tunnel, t: nat, u: nat)
    requires DisconnectEnabled(c, x, t, AcquireToStop)
    ensures SameThread(x, DisconnectStep(c, x, t, AcquireToStop).tunnel, u)
  {}

  lemma StopOthers(b: Attempt, c: Context, x: Tunnel, t: nat, e: DisconnectEvent, u: nat)
    requires DisconnectEnabled(c, x, t, e) && Fails(b.wakes, x, t, UserStop(e)) && Before(b, c, x, t) && ThreadOk(b, x, u)
    ensures DeathsOk(b, DisconnectStep(c, x, t, e).tunnel, u) && SequencesOk(b, DisconnectStep(c, x, t, e).tunnel, u)
  {
    StopKind(b, c, x, t, e);
    hide DisconnectEnabled, DisconnectStep, DeathsOk, SequencesOk, UserOk, Settles, SameThread;
    StopSettles(b, c, x, t);
    StopSame(c, x, t, u);
    SameThreadOk(b, x, DisconnectStep(c, x, t, e).tunnel, u);
  }

  lemma StopCarries(b: Attempt, c: Context, x: Tunnel, t: nat, e: DisconnectEvent, u: nat)
    requires DisconnectEnabled(c, x, t, e) && Fails(b.wakes, x, t, UserStop(e)) && Before(b, c, x, t) && CarriedBy(b, x, u)
    ensures CarriedBy(b, DisconnectStep(c, x, t, e).tunnel, u) || CarriedBy(b, DisconnectStep(c, x, t, e).tunnel, t)
  {}

  /** No wake begins a sequence, and the others hold. */
  lemma RetryKind(b: Attempt, c: Context, x: Tunnel, t: nat, e: RetryEvent)
    requires RetryEnabled(c, x, t, e) && Fails(b.wakes, x, t, Retry(e)) && Before(b, c, x, t)
    ensures !e.HealthCheck? && !e.Hold? && !e.Register? && t in x.threads && x.threads[t].Retrier? && HasHold(x.threads[t]) && t != b.a
    ensures b.a in x.threads ==> x.threads[b.a].Connector?
  {
    hide DeathsOk, Ledger, EntryFacts, LockFacts, MayCall;
  }

  /** The end of a sequence leaves no block. */
  lemma ReleaseLedger(b: Attempt, c: Context, x: Tunnel, t: nat)
    requires RetryEnabled(c, x, t, Release) && Before(b, c, x, t)
    ensures Ledger(b, RetryStep(c, x, t, Release).tunnel)
  {
    hide DeathsOk, NotUp, EntryFacts, LockFacts, MayCall;
  }

  lemma RetryLedger(b: Attempt, c: Context, x: Tunnel, t: nat, e: RetryEvent)
    requires RetryEnabled(c, x, t, e) && Fails(b.wakes, x, t, Retry(e)) && Before(b, c, x, t)
    ensures Ledger(b, RetryStep(c, x, t, e).tunnel) && NotUp(b, RetryStep(c, x, t, e).tunnel)
  {
    RetryKind(b, c, x, t, e);
    if e.Release? { ReleaseLedger(b, c, x, t); }
    RetryRequest(c, x, t, e);
    HolderFrame(c, x, t, e);
    RetryManagers(c, x, t, e);
    RetryLeavesOthers(c, x, t, e, b.a);
    hide RetryStep, RetryEnabled, ThreadOk, EntryFacts, LockFacts;
  }

  lemma RetryUsers(b: Attempt, c: Context, x: Tunnel, t: nat, e: RetryEvent, u: nat)
    requires RetryEnabled(c, x, t, e) && Fails(b.wakes, x, t, Retry(e)) && Before(b, c, x, t) && ThreadOk(b, x, u)
    ensures UserOk(b, RetryStep(c, x, t, e).tunnel, u)
  {
    RetryKind(b, c, x, t, e);
    RetryStays(c, x, t, e);
    RetryRequest(c, x, t, e);
    HolderFrame(c, x, t, e);
    if u != t { RetryFrame(c, x, t, e, u); }
    hide RetryStep, RetryEnabled, DeathsOk, SequencesOk, EntryFacts, LockFacts, Ledger, NotUp;
  }

  lemma RetrySettles(b: Attempt, c: Context, x: Tunnel, t: nat, e: RetryEvent)
    requires RetryEnabled(c, x, t, e) && Fails(b.wakes, x, t, Retry(e)) && Before(b, c, x, t)
    ensures Settles(b, x, RetryStep(c, x, t, e).tunnel)
  {
    RetryKind(b, c, x, t, e);
    ReleaseBlocks(c, x, t, e);
    RetryRequest(c, x, t, e);
    RetryLeavesOthers(c, x, t, e, b.a);
    hide *;
    SameSettles(b, x, RetryStep(c, x, t, e).tunnel);
  }

  lemma ReleaseBlocks(c: Context, x: Tunnel, t: nat, e: RetryEvent)
    requires RetryEnabled(c, x, t, e) && !e.Hold?
    ensures x.slot.blocked.Some? ==> RetryStep(c, x, t, e).tunnel.slot.blocked.Some?
  {
    RetrySlotIs(c, x, t, e);
    hide RetryStep, RetryEnabled;
  }

  lemma RetrySame(b: Attempt, c: Context, x: Tunnel, t: nat, e: RetryEvent, u: nat)
    requires RetryEnabled(c, x, t, e) && Fails(b.wakes, x, t, Retry(e)) && u != t
    ensures SameThread(x, RetryStep(c, x, t, e).tunnel, u)
  {}

  lemma RetryOwn(b: Attempt, c: Context, x: Tunnel, t: nat, e: RetryEvent)
    requires RetryEnabled(c, x, t, e) && Fails(b.wakes, x, t, Retry(e)) && Before(b, c, x, t)
    ensures DeathsOk(b, RetryStep(c, x, t, e).tunnel, t) && SequencesOk(b, RetryStep(c, x, t, e).tunnel, t)
  {
    RetryKind(b, c, x, t, e);
    RetryStays(c, x, t, e);
    RetryOwnSequence(b, c, x, t, e);
  }

  lemma RetryStays(c: Context, x: Tunnel, t: nat, e: RetryEvent)
    requires RetryEnabled(c, x, t, e) && !e.HealthCheck?
    ensures t in RetryStep(c, x, t, e).tunnel.threads ==> RetryStep(c, x, t, e).tunnel.threads[t].Retrier?
  {}

  /** How a sequence that holds moves on. */
  lemma RetryAdvances(c: Context, x: Tunnel, t: nat, e: RetryEvent)
    requires RetryEnabled(c, x, t, e) && !e.HealthCheck? && HasHold(x.threads[t])
    ensures t in RetryStep(c, x, t, e).tunnel.threads ==>
      var th, now := x.threads[t], RetryStep(c, x, t, e).tunnel.threads[t];
      HasHold(now) && (MayCall(now, c.maxAttempts) ==> MayCall(th, c.maxAttempts))
  {}

  /** It gets to a call only by its check, and to connectMu only if that is free. */
  lemma RetryApproaches(c: Context, x: Tunnel, t: nat, e: RetryEvent)
    requires RetryEnabled(c, x, t, e) && !e.HealthCheck? && HasHold(x.threads[t])
    ensures t in RetryStep(c, x, t, e).tunnel.threads ==>
      var th, now := x.threads[t], RetryStep(c, x, t, e).tunnel.threads[t];
      && (Locked(now) ==> Locked(th) || c.mu.None?)
      && (now.retryAt.Calling? || now.retryAt.Connecting? ==>
            th.retryAt == now.retryAt ||
            (th.retryAt.Checking? && (if now.retryAt.proto.OpenVPN? then CallsOvpn(x.slot) else Auto(x.slot) && x.slot.wgConfig.Some?)))
  {
    Frames.RetryOwn(c, x, t, e);
    RetryLocks(c, x, t, e);
    hide RetryStep;
  }

  lemma RetryLocks(c: Context, x: Tunnel, t: nat, e: RetryEvent)
    requires RetryEnabled(c, x, t, e) && !e.HealthCheck?
    ensures t in RetryStep(c, x, t, e).tunnel.threads && Locked(RetryStep(c, x, t, e).tunnel.threads[t]) ==>
      Locked(x.threads[t]) || c.mu.None?
  {}

  lemma RetryOwnSequence(b: Attempt, c: Context, x: Tunnel, t: nat, e: RetryEvent)
    requires RetryEnabled(c, x, t, e) && Fails(b.wakes, x, t, Retry(e)) && Before(b, c, x, t)
    ensures SequencesOk(b, RetryStep(c, x, t, e).tunnel, t)
  {
    RetryKind(b, c, x, t, e);
    RetryStays(c, x, t, e);
    RetrySettles(b, c, x, t, e);
    RetryAdvances(c, x, t, e);
    RetryApproaches(c, x, t, e);
    assert c.mu.None? ==> b.a !in x.threads by { assert LockFacts(c.mu, c.id, x, b.a) && UserOk(b, x, b.a); }
    hide DeathsOk, Ledger, NotUp, EntryFacts, UserOk, LockFacts, RetryStep, MayCall, AutoLater, AutoEver, CallsOvpn;
  }

  lemma RetryOthers(b: Attempt, c: Context, x: Tunnel, t: nat, e: RetryEvent, u: nat)
    requires RetryEnabled(c, x, t, e) && Fails(b.wakes, x, t, Retry(e)) && Before(b, c, x, t) && ThreadOk(b, x, u)
    ensures DeathsOk(b, RetryStep(c, x, t, e).tunnel, u) && SequencesOk(b, RetryStep(c, x, t, e).tunnel, u)
  {
    if u == t {
      RetryOwn(b, c, x, t, e);
    } else {
      RetrySettles(b, c, x, t, e);
      RetrySame(b, c, x, t, e, u);
      SameThreadOk(b, x, RetryStep(c, x, t, e).tunnel, u);
    }
  }

  lemma RetryCarries(b: Attempt, c: Context, x: Tunnel, t: nat, e: RetryEvent, u: nat)
    requires RetryEnabled(c, x, t, e) && Fails(b.wakes, x, t, Retry(e)) && Before(b, c, x, t) && CarriedBy(b, x, u)
    ensures CarriedBy(b, RetryStep(c, x, t, e).tunnel, u) || CarriedBy(b, RetryStep(c, x, t, e).tunnel, t)
  {
    RetryKind(b, c, x, t, e);
    HolderFrame(c, x, t, e);
    RetryManagers(c, x, t, e);
    RetryLeavesOthers(c, x, t, e, b.a);
    if u != t { RetryFrame(c, x, t, e, u); }
    hide RetryStep, RetryEnabled, ThreadOk, Ledger, NotUp, EntryFacts, LockFacts, HasHold;
  }

  lemma OvpnLedger(b: Attempt, c: Context, x: Tunnel, t: nat, e: OvpnEvent)
    requires OvpnEnabled(x, e) && Fails(b.wakes, x, t, Ovpn(e)) && Before(b, c, x, t)
    ensures Ledger(b, OvpnStep(x, e)) && NotUp(b, OvpnStep(x, e))
  {
    hide DeathsOk;
  }

  lemma OvpnUsers(b: Attempt, c: Context, x: Tunnel, t: nat, e: OvpnEvent, u: nat)
    requires OvpnEnabled(x, e) && Fails(b.wakes, x, t, Ovpn(e)) && Before(b, c, x, t)
    requires ThreadOk(b, x, u) && LockFacts(c.mu, c.id, x, u) && EntryFacts(x, u)
    ensures UserOk(b, OvpnStep(x, e), u)
  {
    hide DeathsOk, SequencesOk;
  }

  lemma OvpnDeaths(b: Attempt, c: Context, x: Tunnel, t: nat, e: OvpnEvent, u: nat)
    requires OvpnEnabled(x, e) && Fails(b.wakes, x, t, Ovpn(e)) && Before(b, c, x, t)
    requires ThreadOk(b, x, u) && LockFacts(c.mu, c.id, x, u) && EntryFacts(x, u)
    ensures DeathsOk(b, OvpnStep(x, e), u)
  {
    hide SequencesOk;
  }

  lemma OvpnSequences(b: Attempt, c: Context, x: Tunnel, t: nat, e: OvpnEvent, u: nat)
    requires OvpnEnabled(x, e) && Fails(b.wakes, x, t, Ovpn(e)) && Before(b, c, x, t)
    requires ThreadOk(b, x, u) && LockFacts(c.mu, c.id, x, u) && EntryFacts(x, u)
    ensures SequencesOk(b, OvpnStep(x, e), u)
  {}

  lemma OvpnCarries(b: Attempt, c: Context, x: Tunnel, t: nat, e: OvpnEvent, u: nat)
    requires OvpnEnabled(x, e) && Fails(b.wakes, x, t, Ovpn(e)) && Before(b, c, x, t) && CarriedBy(b, x, u)
    ensures CarriedBy(b, OvpnStep(x, e), u) || CarriedBy(b, OvpnStep(x, e), t)
  {}

  /** No death is announced, and the attempt's own process leaves only after it. */
  lemma TearKind(b: Attempt, c: Context, x: Tunnel, t: nat, e: TearEvent)
    requires TearEnabled(c, x, t, e) && Before(b, c, x, t)
    ensures !e.OnDying? && t != b.a
    ensures e.BeginTear? || e.Remove? ==> b.a !in x.threads
  {
    hide SequencesOk, Ledger, DeathOk, LockFacts;
  }

  lemma TearNotUp(b: Attempt, c: Context, x: Tunnel, t: nat, e: TearEvent)
    requires TearEnabled(c, x, t, e) && t != b.a && NotUp(b, x)
    ensures NotUp(b, TearStep(c, x, t, e))
  {
    TearFrame(c, x, t, e, b.a);
  }

  /** Only a report, the end of a death's mark and a forgetting touch the slot. */
  lemma TearSlot(c: Context, x: Tunnel, t: nat, e: TearEvent)
    requires TearEnabled(c, x, t, e) && !e.OnDying? && !e.Report? && !e.Forget?
    ensures TearStep(c, x, t, e).slot == if e.OnDied? then x.slot.(dying := false) else x.slot
  {}

  lemma ReportLedger(b: Attempt, c: Context, x: Tunnel, t: nat)
    requires TearEnabled(c, x, t, Report) && Before(b, c, x, t) && t != b.a
    ensures Ledger(b, TearStep(c, x, t, Report))
  {
    TearFrame(c, x, t, Report, b.a);
    hide SequencesOk, NotUp, LockFacts, EntryFacts, DeathOk;
  }

  lemma ForgetLedger(b: Attempt, c: Context, x: Tunnel, t: nat)
    requires TearEnabled(c, x, t, Forget) && Before(b, c, x, t) && t != b.a
    ensures Ledger(b, TearStep(c, x, t, Forget))
  {
    TearFrame(c, x, t, Forget, b.a);
    hide SequencesOk, NotUp, LockFacts;
  }

  lemma DiedLedger(b: Attempt, c: Context, x: Tunnel, t: nat, e: TearEvent)
    requires TearEnabled(c, x, t, e) && Before(b, c, x, t) && t != b.a && !e.OnDying? && !e.Report? && !e.Forget?
    ensures Ledger(b, TearStep(c, x, t, e))
  {
    TearFrame(c, x, t, e, b.a);
    TearSlot(c, x, t, e);
    hide SequencesOk, NotUp, LockFacts, TearStep;
  }

  lemma TearLedger(b: Attempt, c: Context, x: Tunnel, t: nat, e: TearEvent)
    requires TearEnabled(c, x, t, e) && Fails(b.wakes, x, t, Tear(e)) && Before(b, c, x, t)
    ensures Ledger(b, TearStep(c, x, t, e)) && NotUp(b, TearStep(c, x, t, e))
  {
    TearKind(b, c, x, t, e);
    TearNotUp(b, c, x, t, e);
    hide TearEnabled, TearStep, ThreadOk, Ledger, NotUp, EntryFacts, LockFacts;
    if e.Report? {
      ReportLedger(b, c, x, t);
    } else if e.Forget? {
      ForgetLedger(b, c, x, t);
    } else {
      DiedLedger(b, c, x, t, e);
    }
  }

  /** A death leaves what the attempt goes by. */
  lemma TearLeaves(b: Attempt, c: Context, x: Tunnel, t: nat, e: TearEvent)
    requires TearEnabled(c, x, t, e) && Before(b, c, x, t) && t != b.a && !e.OnDying?
    ensures Auto(TearStep(c, x, t, e).slot) ==> Auto(x.slot)
    ensures b.lifted && !b.blocked && b.a in x.threads && x.slot.pending ==> TearStep(c, x, t, e).slot.pending
  {
    if !e.Report? && !e.Forget? { TearSlot(c, x, t, e); }
    hide SequencesOk, NotUp, LockFacts, UserOk;
  }

  lemma TearUsers(b: Attempt, c: Context, x: Tunnel, t: nat, e: TearEvent, u: nat)
    requires TearEnabled(c, x, t, e) && Fails(b.wakes, x, t, Tear(e)) && Before(b, c, x, t) && ThreadOk(b, x, u)
    ensures UserOk(b, TearStep(c, x, t, e), u)
  {
    TearKind(b, c, x, t, e);
    TearLeaves(b, c, x, t, e);
    if u != t { TearFrame(c, x, t, e, u); } else { TearStays(c, x, t, e); }
    hide TearStep, TearEnabled, DeathsOk, SequencesOk, Ledger, NotUp, EntryFacts, LockFacts;
  }

  lemma TearStays(c: Context, x: Tunnel, t: nat, e: TearEvent)
    requires TearEnabled(c, x, t, e)
    ensures t in TearStep(c, x, t, e).threads ==>
      TearStep(c, x, t, e).threads[t].Teardown? || (e.NotifyDeath? && Auto(x.slot) && TearStep(c, x, t, e).threads[t].Retrier?)
  {}

  lemma ReportSettles(b: Attempt, c: Context, x: Tunnel, t: nat)
    requires TearEnabled(c, x, t, Report) && Before(b, c, x, t) && t != b.a
    ensures Settles(b, x, TearStep(c, x, t, Report))
  {
    TearFrame(c, x, t, Report, b.a);
    hide ThreadOk, NotUp, LockFacts, EntryFacts;
  }

  lemma ForgetSettles(b: Attempt, c: Context, x: Tunnel, t: nat)
    requires TearEnabled(c, x, t, Forget) && Before(b, c, x, t) && t != b.a
    ensures Settles(b, x, TearStep(c, x, t, Forget))
  {
    TearFrame(c, x, t, Forget, b.a);
    hide SequencesOk, NotUp, LockFacts;
  }

  lemma DiedSettles(b: Attempt, c: Context, x: Tunnel, t: nat, e: TearEvent)
    requires TearEnabled(c, x, t, e) && Before(b, c, x, t) && t != b.a && !e.OnDying? && !e.Report? && !e.Forget?
    ensures Settles(b, x, TearStep(c, x, t, e))
  {
    TearFrame(c, x, t, e, b.a);
    TearSlot(c, x, t, e);
    hide SequencesOk, NotUp, LockFacts, TearStep;
  }

  lemma TearSettles(b: Attempt, c: Context, x: Tunnel, t: nat, e: TearEvent)
    requires TearEnabled(c, x, t, e) && Fails(b.wakes, x, t, Tear(e)) && Before(b, c, x, t)
    ensures Settles(b, x, TearStep(c, x, t, e))
  {
    TearKind(b, c, x, t, e);
    hide TearEnabled, TearStep, ThreadOk, Ledger, NotUp, EntryFacts, LockFacts, Settles;
    if e.Report? {
      ReportSettles(b, c, x, t);
    } else if e.Forget? {
      ForgetSettles(b, c, x, t);
    } else {
      DiedSettles(b, c, x, t, e);
    }
  }

  lemma TearSame(b: Attempt, c: Context, x: Tunnel, t: nat, e: TearEvent, u: nat)
    requires TearEnabled(c, x, t, e) && Fails(b.wakes, x, t, Tear(e)) && u != t
    ensures SameThread(x, TearStep(c, x, t, e), u)
  {}

  /** How a death that is past its announcement moves on. */
  lemma TearAdvances(c: Context, x: Tunnel, t: nat, e: TearEvent)
    requires TearEnabled(c, x, t, e) && !e.BeginTear? && !e.OnDying?
    ensures x.threads[t].Teardown?
    ensures var y := TearStep(c, x, t, e);
      t in y.threads && y.threads[t].Teardown? ==>
        var th, now := x.threads[t], y.threads[t];
        && now.died == th.died && !now.tearAt.Decided? && !now.tearAt.Dying?
        && (now.tearAt.Removed? ==> e.Remove?) && (e.Remove? ==> th.tearAt.Decided? || th.tearAt.Dying?)
        && (!e.Remove? && Unforgotten(now) ==> Unforgotten(th)) && (Unnotified(now) ==> th.tearAt.Undying?)
    ensures e.NotifyDeath? ==> Unnotified(x.threads[t])
  {}

  lemma BeginTearOwn(b: Attempt, c: Context, x: Tunnel, t: nat)
    requires TearEnabled(c, x, t, BeginTear) && Before(b, c, x, t) && b.a !in x.threads
    ensures DeathsOk(b, TearStep(c, x, t, BeginTear), t) && SequencesOk(b, TearStep(c, x, t, BeginTear), t)
  {
    hide Ledger, LockFacts;
  }

  lemma LaterTearOwn(b: Attempt, c: Context, x: Tunnel, t: nat, e: TearEvent)
    requires TearEnabled(c, x, t, e) && Fails(b.wakes, x, t, Tear(e)) && Before(b, c, x, t) && !e.BeginTear? && !e.OnDying?
    requires e.Remove? ==> b.a !in x.threads
    ensures DeathsOk(b, TearStep(c, x, t, e), t) && SequencesOk(b, TearStep(c, x, t, e), t)
  {
    TearSettles(b, c, x, t, e);
    TearAdvances(c, x, t, e);
    TearStays(c, x, t, e);
    hide TearStep, TearEnabled, Ledger, NotUp, LockFacts, UserOk, AutoLater, WantedEver, CallsOvpn, CallsEngineLater;
  }

  lemma TearOwn(b: Attempt, c: Context, x: Tunnel, t: nat, e: TearEvent)
    requires TearEnabled(c, x, t, e) && Fails(b.wakes, x, t, Tear(e)) && Before(b, c, x, t)
    ensures DeathsOk(b, TearStep(c, x, t, e), t) && SequencesOk(b, TearStep(c, x, t, e), t)
  {
    TearKind(b, c, x, t, e);
    hide TearStep, TearEnabled, Ledger, NotUp, LockFacts, ThreadOk, DeathsOk, SequencesOk, EntryFacts;
    if e.BeginTear? { BeginTearOwn(b, c, x, t); } else { LaterTearOwn(b, c, x, t, e); }
  }

  lemma TearOthers(b: Attempt, c: Context, x: Tunnel, t: nat, e: TearEvent, u: nat)
    requires TearEnabled(c, x, t, e) && Fails(b.wakes, x, t, Tear(e)) && Before(b, c, x, t) && ThreadOk(b, x, u)
    ensures DeathsOk(b, TearStep(c, x, t, e), u) && SequencesOk(b, TearStep(c, x, t, e), u)
  {
    if u == t {
      TearOwn(b, c, x, t, e);
    } else {
      TearSettles(b, c, x, t, e);
      TearSame(b, c, x, t, e, u);
      SameThreadOk(b, x, TearStep(c, x, t, e), u);
    }
  }

  lemma TearCarries(b: Attempt, c: Context, x: Tunnel, t: nat, e: TearEvent, u: nat)
    requires TearEnabled(c, x, t, e) && Fails(b.wakes, x, t, Tear(e)) && Before(b, c, x, t) && CarriedBy(b, x, u)
    ensures CarriedBy(b, TearStep(c, x, t, e), u) || CarriedBy(b, TearStep(c, x, t, e), t)
  {}

  lemma WgLedger(b: Attempt, c: Context, x: Tunnel, t: nat, e: WgEvent)
    requires WgEnabled(c, x, t, e) && Fails(b.wakes, x, t, Wg(e)) && Before(b, c, x, t)
    ensures Ledger(b, WgStep(c, x, t, e)) && NotUp(b, WgStep(c, x, t, e))
  {
    hide SequencesOk;
  }

  lemma WgUsers(b: Attempt, c: Context, x: Tunnel, t: nat, e: WgEvent, u: nat)
    requires WgEnabled(c, x, t, e) && Fails(b.wakes, x, t, Wg(e)) && Before(b, c, x, t)
    requires ThreadOk(b, x, u) && LockFacts(c.mu, c.id, x, u) && EntryFacts(x, u)
    ensures UserOk(b, WgStep(c, x, t, e), u)
  {
    hide SequencesOk;
  }

  lemma WgSettles(b: Attempt, c: Context, x: Tunnel, t: nat, e: WgEvent)
    requires WgEnabled(c, x, t, e) && Before(b, c, x, t) && t != b.a
    ensures Settles(b, x, WgStep(c, x, t, e))
  {
    WgFrame(c, x, t, e, b.a);
    hide SequencesOk, NotUp, LockFacts, EntryFacts, UserOk;
  }

  lemma WgSame(c: Context, x: Tunnel, t: nat, e: WgEvent, u: nat)
    requires WgEnabled(c, x, t, e) && u != t
    ensures SameThread(x, WgStep(c, x, t, e), u)
  {
    WgFrame(c, x, t, e, u);
    hide WgStep;
  }

  /** The end of an engine that was gone before the attempt. */
  lemma WgAdvances(b: Attempt, c: Context, x: Tunnel, t: nat, e: WgEvent)
    requires WgEnabled(c, x, t, e) && Before(b, c, x, t)
    ensures !e.Die? && t != b.a && t in x.threads && x.threads[t].WgDeath?
    ensures var y := WgStep(c, x, t, e);
      t in y.threads ==> y.threads[t].WgDeath? && (Unforgotten(y.threads[t]) || Unnotified(y.threads[t]) ==> Unforgotten(x.threads[t]))
  {
    hide SequencesOk, Ledger, LockFacts;
  }

  lemma WgOthers(b: Attempt, c: Context, x: Tunnel, t: nat, e: WgEvent, u: nat)
    requires WgEnabled(c, x, t, e) && Before(b, c, x, t) && ThreadOk(b, x, u)
    ensures DeathsOk(b, WgStep(c, x, t, e), u) && SequencesOk(b, WgStep(c, x, t, e), u)
  {
    WgAdvances(b, c, x, t, e);
    WgSettles(b, c, x, t, e);
    hide WgStep, WgEnabled, Ledger, NotUp, LockFacts, EntryFacts, UserOk, AutoLater, AutoEver, WantedEver, CallsOvpn,
         CallsEngineLater, MayCall;
    if u != t {
      WgSame(c, x, t, e, u);
      SameThreadOk(b, x, WgStep(c, x, t, e), u);
    }
  }

  lemma WgCarries(b: Attempt, c: Context, x: Tunnel, t: nat, e: WgEvent, u: nat)
    requires WgEnabled(c, x, t, e) && Fails(b.wakes, x, t, Wg(e)) && Before(b, c, x, t) && CarriedBy(b, x, u)
    ensures CarriedBy(b, WgStep(c, x, t, e), u) || CarriedBy(b, WgStep(c, x, t, e), t)
  {}

  // ---- one step of the tunnel ----

  lemma StepLedger(b: Attempt, c: Context, x: Tunnel, t: nat, step: Step)
    requires StepEnabled(c, x, t, step) && Fails(b.wakes, x, t, step) && Before(b, c, x, t)
    ensures var y := TunnelStep(c, x, t, step).tunnel; Ledger(b, y) && NotUp(b, y)
  {
    hide ConnectStep, CallStep, DisconnectStep, RetryStep, OvpnStep, TearStep, WgStep, ConnectEnabled, CallEnabled,
         DisconnectEnabled, RetryEnabled, OvpnEnabled, TearEnabled, WgEnabled;
    match step
    case User(e) => UserLedger(b, c, x, t, e);
    case Call(e) => CallLedger(b, c, x, t, e);
    case UserStop(e) => StopLedger(b, c, x, t, e);
    case Retry(e) => RetryLedger(b, c, x, t, e);
    case Ovpn(e) => OvpnLedger(b, c, x, t, e);
    case Tear(e) => TearLedger(b, c, x, t, e);
    case Wg(e) => WgLedger(b, c, x, t, e);
  }

  lemma StepThread(b: Attempt, c: Context, x: Tunnel, t: nat, step: Step, u: nat)
    requires StepEnabled(c, x, t, step) && Fails(b.wakes, x, t, step) && Before(b, c, x, t)
    requires ThreadOk(b, x, u) && LockFacts(c.mu, c.id, x, u) && EntryFacts(x, u)
    ensures ThreadOk(b, TunnelStep(c, x, t, step).tunnel, u)
  {
    hide ConnectStep, CallStep, DisconnectStep, RetryStep, OvpnStep, TearStep, WgStep, ConnectEnabled, CallEnabled,
         DisconnectEnabled, RetryEnabled, OvpnEnabled, TearEnabled, WgEnabled;
    match step
    case User(e) =>
      UserUsers(b, c, x, t, e, u);
      UserOthers(b, c, x, t, e, u);
    case Call(e) =>
      CallUsers(b, c, x, t, e, u);
      CallOthers(b, c, x, t, e, u);
    case UserStop(e) =>
      StopUsers(b, c, x, t, e, u);
      StopOthers(b, c, x, t, e, u);
    case Retry(e) =>
      RetryUsers(b, c, x, t, e, u);
      RetryOthers(b, c, x, t, e, u);
    case Ovpn(e) =>
      OvpnUsers(b, c, x, t, e, u);
      OvpnDeaths(b, c, x, t, e, u);
      OvpnSequences(b, c, x, t, e, u);
    case Tear(e) =>
      TearUsers(b, c, x, t, e, u);
      TearOthers(b, c, x, t, e, u);
    case Wg(e) =>
      WgUsers(b, c, x, t, e, u);
      WgOthers(b, c, x, t, e, u);
  }

  lemma StepCarries(b: Attempt, c: Context, x: Tunnel, t: nat, step: Step, u: nat)
    requires StepEnabled(c, x, t, step) && Fails(b.wakes, x, t, step) && Before(b, c, x, t) && CarriedBy(b, x, u)
    ensures var y := TunnelStep(c, x, t, step).tunnel; CarriedBy(b, y, u) || CarriedBy(b, y, t)
  {
    hide ConnectStep, CallStep, DisconnectStep, RetryStep, OvpnStep, TearStep, WgStep, ConnectEnabled, CallEnabled,
         DisconnectEnabled, RetryEnabled, OvpnEnabled, TearEnabled, WgEnabled;
    match step
    case User(e) => UserCarries(b, c, x, t, e, u);
    case Call(e) => CallCarries(b, c, x, t, e, u);
    case UserStop(e) => StopCarries(b, c, x, t, e, u);
    case Retry(e) => RetryCarries(b, c, x, t, e, u);
    case Ovpn(e) => OvpnCarries(b, c, x, t, e, u);
    case Tear(e) => TearCarries(b, c, x, t, e, u);
    case Wg(e) => WgCarries(b, c, x, t, e, u);
  }

  ghost predicate Undisturbed(b: Attempt, x: Tunnel) {
    && Sensible(b) && Ledger(b, x) && NotUp(b, x)
    && (forall u :: ThreadOk(b, x, u))
    && exists u :: CarriedBy(b, x, u)
  }

  lemma StepUndisturbed(b: Attempt, c: Context, x: Tunnel, t: nat, step: Step)
    requires StepEnabled(c, x, t, step) && Fails(b.wakes, x, t, step)
    requires c.killSwitch == b.killSwitch && c.maxAttempts == b.maxAttempts && b.first <= c.id
    requires Tidy(c.killSwitch, c.mu, c.id, x) && Undisturbed(b, x)
    ensures Undisturbed(b, TunnelStep(c, x, t, step).tunnel)
  {
    var y := TunnelStep(c, x, t, step).tunnel;
    assert ThreadOk(b, x, t) && ThreadOk(b, x, b.a) && EntryFacts(x, t);
    assert LockFacts(c.mu, c.id, x, t) && LockFacts(c.mu, c.id, x, b.a);
    StepLedger(b, c, x, t, step);
    forall u ensures ThreadOk(b, y, u) {
      assert ThreadOk(b, x, u) && LockFacts(c.mu, c.id, x, u) && EntryFacts(x, u);
      StepThread(b, c, x, t, step, u);
    }
    var w :| CarriedBy(b, x, w);
    StepCarries(b, c, x, t, step, w);
  }

  // ---- runs ----

  /** An event of a run in which the attempt fails and the kill switch stays as it is. */
  ghost predicate FailingEvent(wakes: bool, s: Sys, e: Event, n: Name) {
    match e
    case OnPolicy(change) => change.SetKillSwitch? && change.loaded ==> change.on == s.killSwitch
    case On(m, t, step) => m == n ==> Fails(wakes, TunnelAt(s, n), t, step)
  }

  ghost predicate FailingRun(wakes: bool, s: Sys, run: seq<Event>, n: Name)
    requires IsRun(s, run)
    decreases |run|
  {
    run == [] || (FailingEvent(wakes, s, run[0], n) && FailingRun(wakes, Next(s, run[0]), run[1..], n))
  }

  lemma PolicyLeaves(ks: bool, x: Slot, e: PolicyEvent)
    requires (e.SetKillSwitch? && e.loaded ==> e.on == ks) && SlotOk(ks, x)
    ensures var y := PolicySlot(x, e, None); y == x.(cached := y.cached)
  {}

  lemma CacheIsIdle(b: Attempt, x: Tunnel, y: Tunnel, u: nat)
    requires y == x.(slot := x.slot.(cached := y.slot.cached))
    ensures Ledger(b, y) == Ledger(b, x) && NotUp(b, y) == NotUp(b, x)
    ensures ThreadOk(b, y, u) == ThreadOk(b, x, u) && CarriedBy(b, y, u) == CarriedBy(b, x, u)
  {}

  lemma PolicyUndisturbed(b: Attempt, s: Sys, e: PolicyEvent, n: Name)
    requires Enabled(s, OnPolicy(e)) && FailingEvent(b.wakes, s, OnPolicy(e), n)
    requires Sound(s) && Undisturbed(b, TunnelAt(s, n))
    ensures Undisturbed(b, TunnelAt(PolicyStep(s, e), n)) && PolicyStep(s, e).killSwitch == s.killSwitch
  {
    var x, y := TunnelAt(s, n), TunnelAt(PolicyStep(s, e), n);
    PolicyFrame(s, e, n);
    assert TidyAt(s, n) && EntryFacts(x, 0);
    assert LiveAt(e.live, n).None?;
    PolicyLeaves(s.killSwitch, x.slot, e);
    assert y == x.(slot := x.slot.(cached := y.slot.cached));
    hide PolicySlot, IsSnapshot, Ledger, NotUp, ThreadOk, CarriedBy;
    forall u ensures ThreadOk(b, y, u) {
      assert ThreadOk(b, x, u);
      CacheIsIdle(b, x, y, u);
    }
    var w :| CarriedBy(b, x, w);
    CacheIsIdle(b, x, y, w);
  }

  lemma UndisturbedStep(b: Attempt, s: Sys, e: Event, n: Name)
    requires Sound(s) && Enabled(s, e) && FailingEvent(b.wakes, s, e, n) && Undisturbed(b, TunnelAt(s, n))
    requires s.killSwitch == b.killSwitch && s.maxAttempts == b.maxAttempts && b.first <= s.nextId
    ensures var z := Next(s, e);
      Undisturbed(b, TunnelAt(z, n)) && z.killSwitch == b.killSwitch && z.maxAttempts == b.maxAttempts && b.first <= z.nextId
  {
    hide Undisturbed;
    match e
    case OnPolicy(change) => PolicyUndisturbed(b, s, change, n);
    case On(m, t, step) =>
      if m == n {
        assert TidyAt(s, n);
        StepUndisturbed(b, ContextOf(s), TunnelAt(s, n), t, step);
      }
  }

  lemma {:induction false} RunUndisturbed(b: Attempt, s: Sys, run: seq<Event>, n: Name)
    requires Sound(s) && IsRun(s, run) && FailingRun(b.wakes, s, run, n) && Undisturbed(b, TunnelAt(s, n))
    requires s.killSwitch == b.killSwitch && s.maxAttempts == b.maxAttempts && b.first <= s.nextId
    ensures var z := After(s, run); Sound(z) && z.killSwitch == b.killSwitch && Undisturbed(b, TunnelAt(z, n))
    decreases |run|
  {
    hide Undisturbed;
    if run != [] {
      SoundStep(s, run[0]);
      UndisturbedStep(b, s, run[0], n);
      RunUndisturbed(b, Next(s, run[0]), run[1..], n);
    }
  }

  // ---- from the lift to the end of the attempt ----

  /** A connect of a tunnel that is down, not held and not pending is about to lift. */
  predicate AboutToLift(x: Tunnel, a: nat) {
    ConnectorAt(x, a, ConfigCached) && !IsHeld(x.slot) && x.entry.None? && x.wg.None?
  }

  /** The attempt that lifts now. */
  function AttemptOf(s: Sys, n: Name, a: nat, wakes: bool): Attempt
    requires AboutToLift(TunnelAt(s, n), a)
  {
    var x := TunnelAt(s, n);
    Attempt(a, x.threads[a].proto, s.killSwitch, x.slot.blocked.Some?,
            Lifts(x.slot, s.killSwitch, ContextOf(s).anyBlocked), s.nextId, s.maxAttempts, wakes)
  }

  ghost function AfterLift(s: Sys, n: Name, a: nat, resolved: seq<Literal>): Sys
    requires AboutToLift(TunnelAt(s, n), a)
  {
    Next(s, On(n, a, User(Lift(resolved))))
  }

  /** Nothing of the attempt is left: no connect past its check, no process, no report to come. */
  ghost predicate Over(b: Attempt, x: Tunnel) {
    b.a !in x.threads && x.entry.None? && forall u | u >= b.first :: !ReportsAt(x, u)
  }

  /** Blocked exactly if it was, and neither held nor passing through a block. */
  predicate Restored(b: Attempt, x: Slot) { x.blocked.Some? == b.blocked && !IsHeld(x) && !x.through }

  /** What the lift makes of the tunnel. */
  function LiftedTo(s: Sys, n: Name, a: nat, resolved: seq<Literal>): Tunnel
    requires AboutToLift(TunnelAt(s, n), a)
  {
    var x, any := TunnelAt(s, n), ContextOf(s).anyBlocked;
    MoveConnector(x.(slot := LiftSlot(x.slot, s.killSwitch, any, resolved)), a, Ready(Lifts(x.slot, s.killSwitch, any)))
  }

  lemma LiftIs(s: Sys, n: Name, a: nat, resolved: seq<Literal>)
    requires AboutToLift(TunnelAt(s, n), a)
    ensures TunnelAt(AfterLift(s, n, a, resolved), n) == LiftedTo(s, n, a, resolved)
  {}

  lemma LiftUsers(s: Sys, n: Name, a: nat, resolved: seq<Literal>, wakes: bool, u: nat)
    requires AboutToLift(TunnelAt(s, n), a)
    requires LockFacts(s.mu, s.nextId, TunnelAt(s, n), a) && LockFacts(s.mu, s.nextId, TunnelAt(s, n), u)
    requires !WakeDisturbs(AttemptOf(s, n, a, wakes), TunnelAt(s, n))
    ensures UserOk(AttemptOf(s, n, a, wakes), LiftedTo(s, n, a, resolved), u)
  {}

  lemma LiftDeaths(s: Sys, n: Name, a: nat, resolved: seq<Literal>, wakes: bool, u: nat)
    requires AboutToLift(TunnelAt(s, n), a) && EntryFacts(TunnelAt(s, n), u)
    requires var b, x := AttemptOf(s, n, a, wakes), TunnelAt(s, n);
      !DisturbedBy(b, x, u) && !(x.slot.dying && b.lifted && b.proto.OpenVPN?)
    ensures DeathsOk(AttemptOf(s, n, a, wakes), LiftedTo(s, n, a, resolved), u)
  {}

  lemma LiftSequences(s: Sys, n: Name, a: nat, resolved: seq<Literal>, wakes: bool, u: nat)
    requires AboutToLift(TunnelAt(s, n), a)
    requires LockFacts(s.mu, s.nextId, TunnelAt(s, n), a) && LockFacts(s.mu, s.nextId, TunnelAt(s, n), u)
    requires !DisturbedBy(AttemptOf(s, n, a, wakes), TunnelAt(s, n), u)
    ensures SequencesOk(AttemptOf(s, n, a, wakes), LiftedTo(s, n, a, resolved), u)
  {
    hide MayCall;
  }

  lemma LiftLedger(s: Sys, n: Name, a: nat, resolved: seq<Literal>, wakes: bool)
    requires AboutToLift(TunnelAt(s, n), a) && SlotOk(s.killSwitch, TunnelAt(s, n).slot)
    requires LockFacts(s.mu, s.nextId, TunnelAt(s, n), a)
    requires var b := AttemptOf(s, n, a, wakes); !(TunnelAt(s, n).slot.dying && b.lifted && b.proto.OpenVPN?)
    ensures var b, y := AttemptOf(s, n, a, wakes), LiftedTo(s, n, a, resolved);
      Sensible(b) && Ledger(b, y) && NotUp(b, y) && CarriedBy(b, y, a)
  {}

  lemma LiftIsUndisturbed(s: Sys, n: Name, a: nat, resolved: seq<Literal>, wakes: bool)
    requires Sound(s) && AboutToLift(TunnelAt(s, n), a) && !Disturbed(AttemptOf(s, n, a, wakes), TunnelAt(s, n))
    ensures Undisturbed(AttemptOf(s, n, a, wakes), TunnelAt(AfterLift(s, n, a, resolved), n))
  {
    var b, x, y := AttemptOf(s, n, a, wakes), TunnelAt(s, n), LiftedTo(s, n, a, resolved);
    LiftIs(s, n, a, resolved);
    assert TidyAt(s, n) && LockFacts(s.mu, s.nextId, x, a);
    hide AfterLift, LiftedTo, Sound, TidyAt, LockFacts, EntryFacts, SlotOk, UserOk, DeathsOk, SequencesOk, Ledger,
         NotUp, CarriedBy, DisturbedBy, WakeDisturbs;
    LiftLedger(s, n, a, resolved, wakes);
    forall u ensures ThreadOk(b, y, u) {
      assert LockFacts(s.mu, s.nextId, x, u) && EntryFacts(x, u) && !DisturbedBy(b, x, u);
      LiftUsers(s, n, a, resolved, wakes, u);
      LiftDeaths(s, n, a, resolved, wakes, u);
      LiftSequences(s, n, a, resolved, wakes, u);
    }
  }

  lemma OverIsRestored(b: Attempt, ks: bool, x: Tunnel)
    requires Undisturbed(b, x) && Over(b, x) && SlotOk(ks, x.slot)
    ensures Restored(b, x.slot)
  {}

  /**
   * However an undisturbed attempt fails, at once or when its process ends without
   * ever becoming active, and whatever happens to other tunnels meanwhile: the
   * tunnel ends blocked exactly if it was, and holds nothing.
   */
  lemma FailedConnectRestores(s: Sys, n: Name, a: nat, resolved: seq<Literal>, wakes: bool, run: seq<Event>)
    requires Sound(s) && AboutToLift(TunnelAt(s, n), a) && !Disturbed(AttemptOf(s, n, a, wakes), TunnelAt(s, n))
    requires var z := AfterLift(s, n, a, resolved);
      IsRun(z, run) && FailingRun(wakes, z, run, n) && Over(AttemptOf(s, n, a, wakes), TunnelAt(After(z, run), n))
    ensures Restored(AttemptOf(s, n, a, wakes), TunnelAt(After(AfterLift(s, n, a, resolved), run), n).slot)
  {
    var b, z := AttemptOf(s, n, a, wakes), AfterLift(s, n, a, resolved);
    LiftIsUndisturbed(s, n, a, resolved, wakes);
    SoundStep(s, On(n, a, User(Lift(resolved))));
    RunUndisturbed(b, z, run, n);
    var end := After(z, run);
    assert TidyAt(end, n);
    OverIsRestored(b, end.killSwitch, TunnelAt(end, n));
  }

  /** A step of one tunnel leaves every other tunnel alone, and an apply lifts only blocks of tunnels that are up. */
  lemma OthersKeepTheirBlocks(s: Sys, e: Event, n: Name, m: Name, wakes: bool)
    requires Sound(s) && Enabled(s, e) && FailingEvent(wakes, s, e, n) && m != n && (e.On? ==> e.n == n)
    ensures var x, y := TunnelAt(s, m).slot, TunnelAt(Next(s, e), m).slot;
      && y == x.(blocked := y.blocked, cached := y.cached)
      && (y.blocked == x.blocked || (y.blocked.None? && e.OnPolicy? && Live(TunnelAt(s, m))))
  {
    match e
    case OnPolicy(change) =>
      PolicyFrame(s, change, m);
      assert TidyAt(s, m);
      OthersBlocksByPolicy(s.killSwitch, TunnelAt(s, m).slot, change, LiveAt(change.live, m));
    case On(_, t, step) => OtherTidy(s, n, t, step, m);
  }

  lemma OthersBlocksByPolicy(ks: bool, x: Slot, e: PolicyEvent, listed: Option<Pass>)
    requires (e.SetKillSwitch? && e.loaded ==> e.on == ks) && SlotOk(ks, x)
    ensures var y := PolicySlot(x, e, listed);
      && y == x.(blocked := y.blocked, cached := y.cached)
      && (y.blocked == x.blocked || (y.blocked.None? && listed.Some?))
  {}

  /** A connect that only passes through another tunnel's block is pending all the while, in every reachable state. */
  lemma ThroughIsPending(maxAttempts: nat, run: seq<Event>, n: Name)
    requires IsRun(Init(maxAttempts), run)
    ensures var x := TunnelAt(After(Init(maxAttempts), run), n).slot; x.through ==> x.pending
  {
    ReachableSound(maxAttempts, run);
    assert TidyAt(After(Init(maxAttempts), run), n);
  }
}
