// Holds and lookup windows are counted: every suspend of a retry sequence is
// matched by one resume, and a window closes as often as it opened.
module HoldAccounting {
  import opened Common
  import opened Rules
  import opened KillSwitch
  import opened HelperRuns
  import opened Frames
  import opened Steps
  import opened HelperInvariants

  predicate HoldsAt(x: Tunnel, u: nat) { u in x.threads && HasHold(x.threads[u]) }

  /** The retry sequences that have suspended and not yet resumed. */
  function Holders(x: Tunnel): set<nat> { set u | u in x.threads && HasHold(x.threads[u]) }

  /** The thread has a lookup window open. */
  predicate InWindow(th: Thread) {
    (th.Connector? && th.connectAt.ArrivingInWindow?) || (th.Retrier? && th.retryAt.Resolving?)
  }

  predicate WindowAt(x: Tunnel, u: nat) { u in x.threads && InWindow(x.threads[u]) }

  function Windows(x: Tunnel): set<nat> { set u | u in x.threads && InWindow(x.threads[u]) }

  // ---- what one step does to holds and windows ----

  predicate OpensWindow(step: Step) {
    match step
    case User(e) => e.OpenWindow?
    case Retry(e) => e.OpenRetryWindow?
    case _ => false
  }

  predicate ClosesWindow(step: Step) {
    match step
    case User(e) => e.CloseWindow?
    case Retry(e) => e.CloseRetryWindow?
    case _ => false
  }

  function HeldAfter(held: nat, step: Step): nat {
    if step == Retry(Hold) then held + 1
    else if step == Retry(Release) then if held > 1 then held - 1 else 0
    else if step == UserStop(Clear) then 0
    else held
  }

  function WindowsAfter(windows: nat, step: Step): nat {
    if OpensWindow(step) then windows + 1 else if ClosesWindow(step) && windows > 1 then windows - 1 else if ClosesWindow(step) then 0 else windows
  }

  /** A step of thread t moves thread u into its hold only by Hold, and out of it only by Release. */
  predicate HoldMoved(x: Tunnel, t: nat, step: Step, y: Tunnel, u: nat) {
    && (HoldsAt(y, u) <==> (step == Retry(Hold) && u == t) || (HoldsAt(x, u) && !(step == Retry(Release) && u == t)))
    && (step == Retry(Hold) && u == t ==> !HoldsAt(x, u))
    && (step == Retry(Release) && u == t ==> HoldsAt(x, u))
  }

  /** Windows likewise, except that a panic can leave one behind. */
  predicate WindowMoved(x: Tunnel, t: nat, step: Step, y: Tunnel, u: nat) {
    && (WindowAt(y, u) ==> (OpensWindow(step) && u == t) || (WindowAt(x, u) && !(ClosesWindow(step) && u == t)))
    && (ClosesWindow(step) && u == t ==> WindowAt(x, u))
  }

  predicate Moved(x: Tunnel, t: nat, step: Step, y: Tunnel, u: nat) {
    HoldMoved(x, t, step, y, u) && WindowMoved(x, t, step, y, u)
  }

  /** A connect that acts leaves the counts alone. */
  lemma ActingCounts(c: Context, x: Tunnel, t: nat, e: ConnectEvent)
    requires ConnectEnabled(c, x, t, e) && !OnlyWaits(e)
    ensures var y := ConnectStep(c, x, t, e).tunnel; y.slot.held == x.slot.held && y.slot.windows == x.slot.windows
  {}

  lemma WaitingCounts(c: Context, x: Tunnel, t: nat, e: ConnectEvent)
    requires ConnectEnabled(c, x, t, e) && OnlyWaits(e)
    ensures ConnectStep(c, x, t, e).tunnel.slot.windows == WindowsAfter(x.slot.windows, User(e))
  {}

  lemma UserCounts(c: Context, x: Tunnel, t: nat, e: ConnectEvent)
    requires ConnectEnabled(c, x, t, e)
    ensures var y := ConnectStep(c, x, t, e).tunnel;
      y.slot.held == HeldAfter(x.slot.held, User(e)) && y.slot.windows == WindowsAfter(x.slot.windows, User(e))
  {
    if OnlyWaits(e) {
      WaitingFrame(c, x, t, e);
      WaitingCounts(c, x, t, e);
    } else {
      ActingCounts(c, x, t, e);
    }
    hide ConnectEnabled, ConnectStep;
  }

  lemma UserMoves(c: Context, x: Tunnel, t: nat, e: ConnectEvent, u: nat)
    requires ConnectEnabled(c, x, t, e) && LockFacts(c.mu, c.id, x, t) && LockFacts(c.mu, c.id, x, u)
    ensures Moved(x, t, User(e), ConnectStep(c, x, t, e).tunnel, u)
  {}

  lemma CallCounts(c: Context, x: Tunnel, t: nat, e: CallEvent)
    requires CallEnabled(c, x, t, e)
    ensures var y := CallStep(c, x, t, e).tunnel;
      y.slot.held == HeldAfter(x.slot.held, Call(e)) && y.slot.windows == WindowsAfter(x.slot.windows, Call(e))
  {}

  lemma CallMoves(c: Context, x: Tunnel, t: nat, e: CallEvent, u: nat)
    requires CallEnabled(c, x, t, e) && LockFacts(c.mu, c.id, x, t) && LockFacts(c.mu, c.id, x, u)
    ensures Moved(x, t, Call(e), CallStep(c, x, t, e).tunnel, u)
  {}

  lemma StopCounts(c: Context, x: Tunnel, t: nat, e: DisconnectEvent)
    requires DisconnectEnabled(c, x, t, e)
    ensures var y := DisconnectStep(c, x, t, e).tunnel;
      y.slot.held == HeldAfter(x.slot.held, UserStop(e)) && y.slot.windows == WindowsAfter(x.slot.windows, UserStop(e))
  {}

  lemma StopMoves(c: Context, x: Tunnel, t: nat, e: DisconnectEvent, u: nat)
    requires DisconnectEnabled(c, x, t, e) && LockFacts(c.mu, c.id, x, t) && LockFacts(c.mu, c.id, x, u)
    ensures Moved(x, t, UserStop(e), DisconnectStep(c, x, t, e).tunnel, u)
  {}

  lemma RetryCounts(c: Context, x: Tunnel, t: nat, e: RetryEvent)
    requires RetryEnabled(c, x, t, e)
    ensures var y := RetryStep(c, x, t, e).tunnel;
      y.slot.held == HeldAfter(x.slot.held, Retry(e)) && y.slot.windows == WindowsAfter(x.slot.windows, Retry(e))
  {
    RetrySlotIs(c, x, t, e);
    hide RetryEnabled, RetryStep;
  }

  lemma OwnHold(c: Context, x: Tunnel, t: nat, e: RetryEvent)
    requires RetryEnabled(c, x, t, e) && LockFacts(c.mu, c.id, x, t)
    ensures HoldMoved(x, t, Retry(e), RetryStep(c, x, t, e).tunnel, t)
  {}

  lemma RetryHolds(c: Context, x: Tunnel, t: nat, e: RetryEvent, u: nat)
    requires RetryEnabled(c, x, t, e) && LockFacts(c.mu, c.id, x, t) && LockFacts(c.mu, c.id, x, u)
    ensures HoldMoved(x, t, Retry(e), RetryStep(c, x, t, e).tunnel, u)
  {
    if u == t {
      OwnHold(c, x, t, e);
    } else {
      RetryFrame(c, x, t, e, u);
      hide RetryEnabled, RetryStep;
    }
  }

  lemma RetryWindows(c: Context, x: Tunnel, t: nat, e: RetryEvent, u: nat)
    requires RetryEnabled(c, x, t, e) && LockFacts(c.mu, c.id, x, t) && LockFacts(c.mu, c.id, x, u)
    ensures WindowMoved(x, t, Retry(e), RetryStep(c, x, t, e).tunnel, u)
  {}

  lemma OvpnCounts(c: Context, x: Tunnel, t: nat, e: OvpnEvent)
    requires OvpnEnabled(x, e)
    ensures var y := OvpnStep(x, e);
      y.slot.held == HeldAfter(x.slot.held, Ovpn(e)) && y.slot.windows == WindowsAfter(x.slot.windows, Ovpn(e))
  {}

  lemma OvpnMoves(c: Context, x: Tunnel, t: nat, e: OvpnEvent, u: nat)
    requires OvpnEnabled(x, e) && LockFacts(c.mu, c.id, x, t) && LockFacts(c.mu, c.id, x, u)
    ensures Moved(x, t, Ovpn(e), OvpnStep(x, e), u)
  {}

  lemma TearCounts(c: Context, x: Tunnel, t: nat, e: TearEvent)
    requires TearEnabled(c, x, t, e)
    ensures var y := TearStep(c, x, t, e);
      y.slot.held == HeldAfter(x.slot.held, Tear(e)) && y.slot.windows == WindowsAfter(x.slot.windows, Tear(e))
  {}

  lemma TearMoves(c: Context, x: Tunnel, t: nat, e: TearEvent, u: nat)
    requires TearEnabled(c, x, t, e) && LockFacts(c.mu, c.id, x, t) && LockFacts(c.mu, c.id, x, u)
    ensures Moved(x, t, Tear(e), TearStep(c, x, t, e), u)
  {}

  lemma WgCounts(c: Context, x: Tunnel, t: nat, e: WgEvent)
    requires WgEnabled(c, x, t, e)
    ensures var y := WgStep(c, x, t, e);
      y.slot.held == HeldAfter(x.slot.held, Wg(e)) && y.slot.windows == WindowsAfter(x.slot.windows, Wg(e))
  {}

  lemma WgMoves(c: Context, x: Tunnel, t: nat, e: WgEvent, u: nat)
    requires WgEnabled(c, x, t, e) && LockFacts(c.mu, c.id, x, t) && LockFacts(c.mu, c.id, x, u)
    ensures Moved(x, t, Wg(e), WgStep(c, x, t, e), u)
  {}

  lemma StepCounts(c: Context, x: Tunnel, t: nat, step: Step)
    requires StepEnabled(c, x, t, step)
    ensures var y := TunnelStep(c, x, t, step).tunnel;
      y.slot.held == HeldAfter(x.slot.held, step) && y.slot.windows == WindowsAfter(x.slot.windows, step)
  {
    match step
    case User(e) => UserCounts(c, x, t, e);
    case Call(e) => CallCounts(c, x, t, e);
    case UserStop(e) => StopCounts(c, x, t, e);
    case Retry(e) => RetryCounts(c, x, t, e);
    case Ovpn(e) => OvpnCounts(c, x, t, e);
    case Tear(e) => TearCounts(c, x, t, e);
    case Wg(e) => WgCounts(c, x, t, e);
  }

  lemma StepMoves(c: Context, x: Tunnel, t: nat, step: Step, u: nat)
    requires StepEnabled(c, x, t, step) && LockFacts(c.mu, c.id, x, t) && LockFacts(c.mu, c.id, x, u)
    ensures Moved(x, t, step, TunnelStep(c, x, t, step).tunnel, u)
  {
    match step
    case User(e) => UserMoves(c, x, t, e, u);
    case Call(e) => CallMoves(c, x, t, e, u);
    case UserStop(e) => StopMoves(c, x, t, e, u);
    case Retry(e) =>
      RetryHolds(c, x, t, e, u);
      RetryWindows(c, x, t, e, u);
    case Ovpn(e) => OvpnMoves(c, x, t, e, u);
    case Tear(e) => TearMoves(c, x, t, e, u);
    case Wg(e) => WgMoves(c, x, t, e, u);
  }

  // ---- runs ----

  function Count(run: seq<Event>, p: Event -> bool): nat {
    if run == [] then 0 else (if p(run[0]) then 1 else 0) + Count(run[1..], p)
  }

  function One(b: bool): nat { if b then 1 else 0 }

  lemma MovesAt(s: Sys, n: Name, t: nat, step: Step, u: nat)
    requires Sound(s) && Enabled(s, On(n, t, step))
    ensures Moved(TunnelAt(s, n), t, step, TunnelAt(Next(s, On(n, t, step)), n), u)
  {
    assert TidyAt(s, n);
    var c, x := ContextOf(s), TunnelAt(s, n);
    assert LockFacts(c.mu, c.id, x, t) && LockFacts(c.mu, c.id, x, u);
    StepMoves(c, x, t, step, u);
  }

  lemma PolicyMoves(s: Sys, e: PolicyEvent, n: Name)
    requires Enabled(s, OnPolicy(e))
    ensures var x, y := TunnelAt(s, n), TunnelAt(PolicyStep(s, e), n);
      x.threads == y.threads && x.slot.held == y.slot.held && x.slot.windows == y.slot.windows
  {
    PolicyFrame(s, e, n);
    PolicyCounts(TunnelAt(s, n).slot, e, LiveAt(e.live, n));
    hide PolicySlot, PolicyStep, IsSnapshot;
  }

  lemma PolicyCounts(x: Slot, e: PolicyEvent, listed: Option<Pass>)
    ensures var y := PolicySlot(x, e, listed); y.held == x.held && y.windows == x.windows
  {}

  predicate IsHold(e: Event, n: Name, t: nat) { e == On(n, t, Retry(Hold)) }

  predicate IsRelease(e: Event, n: Name, t: nat) { e == On(n, t, Retry(Release)) }

  /** One event: a sequence is suspended by its Hold and resumed by its Release. */
  lemma HoldEvent(s: Sys, e: Event, n: Name, t: nat)
    requires Sound(s) && Enabled(s, e)
    ensures One(HoldsAt(TunnelAt(s, n), t)) + One(IsHold(e, n, t)) ==
            One(HoldsAt(TunnelAt(Next(s, e), n), t)) + One(IsRelease(e, n, t))
  {
    match e
    case OnPolicy(change) => PolicyMoves(s, change, n);
    case On(m, u, step) => if m == n { MovesAt(s, n, u, step, t); }
  }

  /** Over a run, suspends and resumes of sequence t differ by what it holds. */
  lemma {:induction false} SuspendsMatchResumes(s: Sys, run: seq<Event>, n: Name, t: nat)
    requires Sound(s) && IsRun(s, run)
    ensures One(HoldsAt(TunnelAt(s, n), t)) + Count(run, e => IsHold(e, n, t)) ==
            One(HoldsAt(TunnelAt(After(s, run), n), t)) + Count(run, e => IsRelease(e, n, t))
    decreases |run|
  {
    if run != [] {
      HoldEvent(s, run[0], n, t);
      SoundStep(s, run[0]);
      SuspendsMatchResumes(Next(s, run[0]), run[1..], n, t);
    }
  }

  /** Thread t of the tunnel, if it still runs, has come past its suspend. */
  predicate Spent(x: Tunnel, t: nat) {
    t in x.threads ==> x.threads[t].Retrier? && !x.threads[t].retryAt.Notified? && !x.threads[t].retryAt.Registered?
  }

  predicate MaySuspend(s: Sys, n: Name, t: nat) { t >= s.nextId || !Spent(TunnelAt(s, n), t) }

  lemma SpentByRetry(c: Context, x: Tunnel, u: nat, e: RetryEvent, t: nat)
    requires RetryEnabled(c, x, u, e) && t < c.id && Spent(x, t)
    ensures Spent(RetryStep(c, x, u, e).tunnel, t) && !(e == Hold && u == t)
  {}

  lemma SpentByStop(c: Context, x: Tunnel, u: nat, e: DisconnectEvent, t: nat)
    requires DisconnectEnabled(c, x, u, e) && t < c.id && Spent(x, t)
    ensures Spent(DisconnectStep(c, x, u, e).tunnel, t)
  {}

  lemma SpentByDeath(c: Context, x: Tunnel, u: nat, step: Step, t: nat)
    requires StepEnabled(c, x, u, step) && (step.Tear? || step.Wg? || step.Ovpn?) && t < c.id && Spent(x, t)
    ensures Spent(TunnelStep(c, x, u, step).tunnel, t)
  {}

  lemma SpentByOther(c: Context, x: Tunnel, u: nat, step: Step, t: nat)
    requires StepEnabled(c, x, u, step) && !step.Retry? && t < c.id && Spent(x, t)
    ensures Spent(TunnelStep(c, x, u, step).tunnel, t)
  {
    match step
    case User(e) =>
      UserOwn(c, x, u, e);
      if u != t { UserFrame(c, x, u, e, t); }
      hide ConnectEnabled, ConnectStep;
    case Call(e) =>
      CallerMoves(c, x, u, e);
      if u != t { CallFrame(c, x, u, e, t); }
      if u == t && x.threads[u].Retrier? { CallerGoesOn(c, x, u, e); }
      hide CallStep;
    case UserStop(e) => SpentByStop(c, x, u, e, t);
    case _ => SpentByDeath(c, x, u, step, t);
  }

  lemma CallerGoesOn(c: Context, x: Tunnel, t: nat, e: CallEvent)
    requires CallEnabled(c, x, t, e) && x.threads[t].Retrier?
    ensures var y := CallStep(c, x, t, e).tunnel; t in y.threads && y.threads[t].Retrier? && HasHold(y.threads[t])
  {}

  lemma HoldSpendsStep(c: Context, x: Tunnel, t: nat)
    requires StepEnabled(c, x, t, Retry(Hold)) && LockFacts(c.mu, c.id, x, t)
    ensures t < c.id
    ensures var y := TunnelStep(c, x, t, Retry(Hold)).tunnel; t in y.threads && y.threads[t].Retrier? && y.threads[t].retryAt.Replacing?
  {}

  lemma SuspendsOnceEvent(s: Sys, e: Event, n: Name, t: nat)
    requires Sound(s) && Enabled(s, e)
    ensures !MaySuspend(s, n, t) ==> !IsHold(e, n, t) && !MaySuspend(Next(s, e), n, t)
    ensures IsHold(e, n, t) ==> !MaySuspend(Next(s, e), n, t)
  {
    assert TidyAt(s, n);
    var c, x := ContextOf(s), TunnelAt(s, n);
    match e
    case OnPolicy(change) => PolicyMoves(s, change, n);
    case On(m, u, step) =>
      if m == n {
        if IsHold(e, n, t) {
          assert LockFacts(c.mu, c.id, x, t);
          HoldSpendsStep(c, x, t);
        }
        if !MaySuspend(s, n, t) {
          if step.Retry? {
            SpentByRetry(c, x, u, step.retry, t);
          } else {
            SpentByOther(c, x, u, step, t);
          }
        }
      }
  }

  lemma {:induction false} SuspendsAtMostOnce(s: Sys, run: seq<Event>, n: Name, t: nat)
    requires Sound(s) && IsRun(s, run)
    ensures Count(run, e => IsHold(e, n, t)) <= One(MaySuspend(s, n, t))
    decreases |run|
  {
    if run != [] {
      SuspendsOnceEvent(s, run[0], n, t);
      SoundStep(s, run[0]);
      SuspendsAtMostOnce(Next(s, run[0]), run[1..], n, t);
    }
  }

  /** However a sequence ends, it has resumed exactly as often as it suspended: once or never. */
  lemma EverySuspendResumesOnce(maxAttempts: nat, run: seq<Event>, n: Name, t: nat)
    requires IsRun(Init(maxAttempts), run)
    requires t !in TunnelAt(After(Init(maxAttempts), run), n).threads
    ensures Count(run, e => IsRelease(e, n, t)) == Count(run, e => IsHold(e, n, t)) <= 1
  {
    InitSound(maxAttempts);
    SuspendsMatchResumes(Init(maxAttempts), run, n, t);
    SuspendsAtMostOnce(Init(maxAttempts), run, n, t);
  }

  // ---- the count ----

  predicate Clears(e: Event, n: Name) { e.On? && e.n == n && e.step == UserStop(Clear) }

  lemma HoldersAfter(x: Tunnel, t: nat, step: Step, y: Tunnel)
    requires forall u :: HoldMoved(x, t, step, y, u)
    ensures |Holders(y)| == |Holders(x)| + One(step == Retry(Hold)) - One(step == Retry(Release))
  {
    forall u ensures u in Holders(y) <==> (step == Retry(Hold) && u == t) || (u in Holders(x) && !(step == Retry(Release) && u == t)) {
      assert HoldMoved(x, t, step, y, u);
    }
    assert HoldMoved(x, t, step, y, t);
    if step == Retry(Hold) {
      assert Holders(y) == Holders(x) + {t} && t !in Holders(x);
    } else if step == Retry(Release) {
      assert Holders(y) == Holders(x) - {t} && t in Holders(x);
    } else {
      assert Holders(y) == Holders(x);
    }
  }

  lemma HeldStep(s: Sys, e: Event, n: Name)
    requires Sound(s) && Enabled(s, e) && !Clears(e, n)
    requires var x := TunnelAt(s, n); x.slot.held == |Holders(x)|
    ensures var y := TunnelAt(Next(s, e), n); y.slot.held == |Holders(y)|
  {
    match e
    case OnPolicy(change) => PolicyMoves(s, change, n);
    case On(m, t, step) =>
      if m == n {
        var x, y := TunnelAt(s, n), TunnelAt(Next(s, e), n);
        StepCounts(ContextOf(s), x, t, step);
        forall u ensures HoldMoved(x, t, step, y, u) { MovesAt(s, n, t, step, u); }
        HoldersAfter(x, t, step, y);
      }
  }

  /** Without a user Disconnect of n, its count is the number of sequences suspended and not resumed. */
  lemma {:induction false} HeldCountsSequences(s: Sys, run: seq<Event>, n: Name)
    requires Sound(s) && IsRun(s, run) && forall e | e in run :: !Clears(e, n)
    requires var x := TunnelAt(s, n); x.slot.held == |Holders(x)|
    ensures var y := TunnelAt(After(s, run), n); y.slot.held == |Holders(y)|
    decreases |run|
  {
    if run != [] {
      HeldStep(s, run[0], n);
      SoundStep(s, run[0]);
      HeldCountsSequences(Next(s, run[0]), run[1..], n);
    }
  }

  /** So replacing a sequence never lets the count reach zero while the new one has not resumed. */
  lemma HeldWhileASequenceHolds(maxAttempts: nat, run: seq<Event>, n: Name, t: nat)
    requires IsRun(Init(maxAttempts), run) && forall e | e in run :: !Clears(e, n)
    requires HoldsAt(TunnelAt(After(Init(maxAttempts), run), n), t)
    ensures IsHeld(TunnelAt(After(Init(maxAttempts), run), n).slot)
  {
    InitSound(maxAttempts);
    HeldCountsSequences(Init(maxAttempts), run, n);
    var y := TunnelAt(After(Init(maxAttempts), run), n);
    assert t in Holders(y);
  }

  lemma HeldAtMostStep(s: Sys, e: Event, n: Name)
    requires Sound(s) && Enabled(s, e)
    requires var x := TunnelAt(s, n); x.slot.held <= |Holders(x)|
    ensures var y := TunnelAt(Next(s, e), n); y.slot.held <= |Holders(y)|
  {
    match e
    case OnPolicy(change) => PolicyMoves(s, change, n);
    case On(m, t, step) =>
      if m == n {
        var x, y := TunnelAt(s, n), TunnelAt(Next(s, e), n);
        StepCounts(ContextOf(s), x, t, step);
        forall u ensures HoldMoved(x, t, step, y, u) { MovesAt(s, n, t, step, u); }
        HoldersAfter(x, t, step, y);
      }
  }

  lemma {:induction false} HeldAtMost(s: Sys, run: seq<Event>, n: Name)
    requires Sound(s) && IsRun(s, run)
    requires var x := TunnelAt(s, n); x.slot.held <= |Holders(x)|
    ensures var y := TunnelAt(After(s, run), n); y.slot.held <= |Holders(y)|
    decreases |run|
  {
    if run != [] {
      HeldAtMostStep(s, run[0], n);
      SoundStep(s, run[0]);
      HeldAtMost(Next(s, run[0]), run[1..], n);
    }
  }

  /** Even across user Disconnects, no tunnel is held more often than sequences hold it. */
  lemma EveryHoldHasASequence(s: Sys, n: Name)
    requires Reachable(s)
    ensures var x := TunnelAt(s, n); x.slot.held <= |Holders(x)|
  {
    var maxAttempts, run :| ReachedBy(s, maxAttempts, run);
    InitSound(maxAttempts);
    HeldAtMost(Init(maxAttempts), run, n);
  }

  // ---- lookup windows ----

  predicate IsOpen(e: Event, n: Name) { e.On? && e.n == n && OpensWindow(e.step) }

  predicate IsClose(e: Event, n: Name) { e.On? && e.n == n && ClosesWindow(e.step) }

  /** Every thread with a window open is counted. */
  ghost predicate WindowsCounted(x: Tunnel) { |Windows(x)| <= x.slot.windows }

  lemma Smaller(a: set<nat>, b: set<nat>)
    requires a <= b
    ensures |a| <= |b|
  {
    assert b == a + (b - a);
  }

  lemma WindowsMoved(x: Tunnel, t: nat, step: Step, y: Tunnel)
    requires forall u :: WindowMoved(x, t, step, y, u)
    ensures |Windows(y)| + One(ClosesWindow(step)) <= |Windows(x)| + One(OpensWindow(step))
  {
    assert WindowMoved(x, t, step, y, t);
    forall u | u in Windows(y) ensures (OpensWindow(step) && u == t) || (u in Windows(x) && !(ClosesWindow(step) && u == t)) {
      assert WindowMoved(x, t, step, y, u);
    }
    var before := Windows(x) - (if ClosesWindow(step) then {t} else {});
    var most := before + (if OpensWindow(step) then {t} else {});
    assert ClosesWindow(step) ==> t in Windows(x);
    Smaller(Windows(y), most);
  }

  lemma WindowStep(s: Sys, e: Event, n: Name)
    requires Sound(s) && Enabled(s, e) && WindowsCounted(TunnelAt(s, n))
    ensures WindowsCounted(TunnelAt(Next(s, e), n))
    ensures TunnelAt(s, n).slot.windows + One(IsOpen(e, n)) == TunnelAt(Next(s, e), n).slot.windows + One(IsClose(e, n))
  {
    match e
    case OnPolicy(change) => PolicyMoves(s, change, n);
    case On(m, t, step) =>
      if m == n {
        var x, y := TunnelAt(s, n), TunnelAt(Next(s, e), n);
        StepCounts(ContextOf(s), x, t, step);
        forall u ensures WindowMoved(x, t, step, y, u) { MovesAt(s, n, t, step, u); }
        WindowsMoved(x, t, step, y);
        assert ClosesWindow(step) ==> |Windows(y)| + 1 <= |Windows(x)|;
      }
  }

  /** The count of open windows is opens minus closes, and port 53 is passed while it is positive. */
  lemma {:induction false} WindowsBalance(s: Sys, run: seq<Event>, n: Name)
    requires Sound(s) && IsRun(s, run) && WindowsCounted(TunnelAt(s, n))
    ensures var x, y := TunnelAt(s, n).slot, TunnelAt(After(s, run), n).slot;
      && y.windows + Count(run, e => IsClose(e, n)) == x.windows + Count(run, e => IsOpen(e, n))
      && (y.servers.Some? <==> y.windows > 0)
    decreases |run|
  {
    if run == [] {
      assert TidyAt(s, n);
    } else {
      WindowStep(s, run[0], n);
      SoundStep(s, run[0]);
      WindowsBalance(Next(s, run[0]), run[1..], n);
    }
  }
}
