// No resurrection: what a user Disconnect turned off stays off until a connect
// that began after it, whatever was in flight.
module NoResurrection {
  import opened Common
  import opened Rules
  import opened KillSwitch
  import opened HelperRuns
  import opened Steps
  import opened Frames
  import opened HelperInvariants
  import opened HoldAccounting

  /** The helper wants nothing of the tunnel and neither blocks nor pends it. */
  predicate OffSlot(x: Slot) {
    x.wgConfig.None? && x.ovpnConfig.None? && !Auto(x) && !x.pending && x.blocked.None?
  }

  predicate RetrierAt(x: Tunnel, u: nat) { u in x.threads && x.threads[u].Retrier? }

  /** The retry sequences of the tunnel. */
  function Retriers(x: Tunnel): set<nat> { set u | u in x.threads && x.threads[u].Retrier? }

  /** Thread u cannot bring the tunnel up: a connect is overtaken, a retry has not passed its check. */
  predicate OffThread(x: Tunnel, u: nat) {
    u in x.threads ==>
      match x.threads[u]
      case Connector(_, _, _, epoch, stage, _, _) => (stage.Arriving? || stage.ArrivingInWindow?) && epoch < x.slot.epoch
      case Retrier(stage, _, _) => !stage.Calling? && !stage.Connecting?
      case _ => true
  }

  ghost predicate Off(x: Tunnel) {
    OffSlot(x.slot) && x.slot.held <= |Holders(x)| && forall u :: OffThread(x, u)
  }

  /** A connect that reads the disconnect count now. */
  predicate Begins(step: Step) {
    match step
    case User(e) => e.Arrive?
    case _ => false
  }

  lemma UserOff(c: Context, x: Tunnel, t: nat, e: ConnectEvent, u: nat)
    requires ConnectEnabled(c, x, t, e) && !e.Arrive?
    requires OffSlot(x.slot) && OffThread(x, t) && OffThread(x, u)
    ensures var y := ConnectStep(c, x, t, e).tunnel;
      OffSlot(y.slot) && OffThread(y, u) && (RetrierAt(y, u) ==> RetrierAt(x, u))
  {}

  lemma StopOff(c: Context, x: Tunnel, t: nat, e: DisconnectEvent, u: nat)
    requires DisconnectEnabled(c, x, t, e)
    requires OffSlot(x.slot) && OffThread(x, t) && OffThread(x, u)
    ensures var y := DisconnectStep(c, x, t, e).tunnel;
      OffSlot(y.slot) && OffThread(y, u) && (RetrierAt(y, u) ==> RetrierAt(x, u))
  {}

  lemma RetryOff(c: Context, x: Tunnel, t: nat, e: RetryEvent, u: nat)
    requires RetryEnabled(c, x, t, e)
    requires OffSlot(x.slot) && OffThread(x, t) && OffThread(x, u)
    ensures var y := RetryStep(c, x, t, e).tunnel;
      OffSlot(y.slot) && OffThread(y, u) && (RetrierAt(y, u) ==> RetrierAt(x, u))
  {
    RetrySlotIs(c, x, t, e);
    RetryOwn(c, x, t, e);
    assert !e.HealthCheck?;
    if u != t { RetryFrame(c, x, t, e, u); }
    hide RetryEnabled, RetryStep;
  }

  lemma OvpnOff(c: Context, x: Tunnel, t: nat, e: OvpnEvent, u: nat)
    requires OvpnEnabled(x, e)
    requires OffSlot(x.slot) && OffThread(x, t) && OffThread(x, u)
    ensures var y := OvpnStep(x, e);
      OffSlot(y.slot) && OffThread(y, u) && (RetrierAt(y, u) ==> RetrierAt(x, u))
  {}

  lemma TearOff(c: Context, x: Tunnel, t: nat, e: TearEvent, u: nat)
    requires TearEnabled(c, x, t, e)
    requires OffSlot(x.slot) && OffThread(x, t) && OffThread(x, u)
    ensures var y := TearStep(c, x, t, e);
      OffSlot(y.slot) && OffThread(y, u) && (RetrierAt(y, u) ==> RetrierAt(x, u))
  {}

  lemma WgOff(c: Context, x: Tunnel, t: nat, e: WgEvent, u: nat)
    requires WgEnabled(c, x, t, e)
    requires OffSlot(x.slot) && OffThread(x, t) && OffThread(x, u)
    ensures var y := WgStep(c, x, t, e);
      OffSlot(y.slot) && OffThread(y, u) && (RetrierAt(y, u) ==> RetrierAt(x, u))
  {}

  /** No thread of an off tunnel reaches a manager's Connect. */
  lemma NoCallOff(c: Context, x: Tunnel, t: nat, e: CallEvent)
    requires OffThread(x, t)
    ensures !CallEnabled(c, x, t, e)
  {}

  lemma StepOff(c: Context, x: Tunnel, t: nat, step: Step, u: nat)
    requires StepEnabled(c, x, t, step) && !Begins(step)
    requires OffSlot(x.slot) && OffThread(x, t) && OffThread(x, u)
    ensures !step.Call?
    ensures var y := TunnelStep(c, x, t, step).tunnel;
      OffSlot(y.slot) && OffThread(y, u) && (RetrierAt(y, u) ==> RetrierAt(x, u))
  {
    match step
    case User(e) => UserOff(c, x, t, e, u);
    case Call(e) => NoCallOff(c, x, t, e);
    case UserStop(e) => StopOff(c, x, t, e, u);
    case Retry(e) => RetryOff(c, x, t, e, u);
    case Ovpn(e) => OvpnOff(c, x, t, e, u);
    case Tear(e) => TearOff(c, x, t, e, u);
    case Wg(e) => WgOff(c, x, t, e, u);
  }

  /** The Disconnect's own section turns the tunnel off: it holds connectMu, so no connect or retry is past its check. */
  lemma ClearTurnsOff(s: Sys, n: Name, t: nat)
    requires Sound(s) && Enabled(s, On(n, t, UserStop(Clear)))
    ensures var y := TunnelAt(Next(s, On(n, t, UserStop(Clear))), n);
      Off(y) && Retriers(y) == Retriers(TunnelAt(s, n))
  {
    var c, x, y := ContextOf(s), TunnelAt(s, n), TunnelAt(Next(s, On(n, t, UserStop(Clear))), n);
    assert TidyAt(s, n);
    assert LockFacts(c.mu, c.id, x, t);
    forall u ensures OffThread(y, u) { assert LockFacts(c.mu, c.id, x, u); }
  }

  lemma OffPolicy(s: Sys, e: PolicyEvent, n: Name)
    requires Enabled(s, OnPolicy(e)) && Off(TunnelAt(s, n))
    ensures var y := TunnelAt(PolicyStep(s, e), n); Off(y) && y.threads == TunnelAt(s, n).threads
  {
    var x, y := TunnelAt(s, n), TunnelAt(PolicyStep(s, e), n);
    PolicyMoves(s, e, n);
    PolicyOff(x.slot, e, LiveAt(e.live, n));
    PolicyFrame(s, e, n);
    assert Holders(y) == Holders(x);
    forall u ensures OffThread(y, u) { assert OffThread(x, u); }
  }

  lemma PolicyOff(x: Slot, e: PolicyEvent, listed: Option<Pass>)
    requires OffSlot(x)
    ensures OffSlot(PolicySlot(x, e, listed)) && PolicySlot(x, e, listed).epoch == x.epoch
  {}

  /** The event is not a connect of n that begins. */
  predicate NoNewConnect(e: Event, n: Name) { e.On? && e.n == n ==> !Begins(e.step) }

  predicate CallsConnect(e: Event, n: Name) { e.On? && e.n == n && e.step.Call? }

  lemma OffTunnelStep(s: Sys, n: Name, t: nat, step: Step)
    requires Sound(s) && Enabled(s, On(n, t, step)) && Off(TunnelAt(s, n)) && !Begins(step)
    ensures var y := TunnelAt(Next(s, On(n, t, step)), n); Off(y) && Retriers(y) <= Retriers(TunnelAt(s, n))
    ensures !step.Call?
  {
    var c, x, y := ContextOf(s), TunnelAt(s, n), TunnelAt(Next(s, On(n, t, step)), n);
    Goes(s, n, t, step);
    StepCounts(c, x, t, step);
    forall u ensures HoldMoved(x, t, step, y, u) { MovesAt(s, n, t, step, u); }
    HoldersAfter(x, t, step, y);
    hide Next, HoldMoved, Holders;
    assert OffThread(x, t);
    forall u ensures OffThread(y, u) && (RetrierAt(y, u) ==> RetrierAt(x, u)) && OffSlot(y.slot) && !step.Call? {
      assert OffThread(x, u);
      StepOff(c, x, t, step, u);
    }
    hide StepEnabled, TunnelStep, OffSlot;
    assert OffThread(y, t);
    forall u | u in Retriers(y) ensures u in Retriers(x) { assert RetrierAt(y, u) ==> RetrierAt(x, u); }
  }

  lemma OffStep(s: Sys, e: Event, n: Name)
    requires Sound(s) && Enabled(s, e) && Off(TunnelAt(s, n)) && NoNewConnect(e, n)
    ensures var y := TunnelAt(Next(s, e), n); Off(y) && Retriers(y) <= Retriers(TunnelAt(s, n))
    ensures !CallsConnect(e, n)
  {
    hide Sound, Off;
    match e
    case OnPolicy(change) => OffPolicy(s, change, n);
    case On(m, t, step) => if m == n { OffTunnelStep(s, n, t, step); }
  }

  lemma {:induction false} StaysOff(s: Sys, run: seq<Event>, n: Name)
    requires Sound(s) && IsRun(s, run) && Off(TunnelAt(s, n)) && forall e | e in run :: NoNewConnect(e, n)
    ensures var y := TunnelAt(After(s, run), n); Off(y) && Retriers(y) <= Retriers(TunnelAt(s, n))
    ensures forall e | e in run :: !CallsConnect(e, n)
    decreases |run|
  {
    if run != [] {
      OffStep(s, run[0], n);
      SoundStep(s, run[0]);
      StaysOff(Next(s, run[0]), run[1..], n);
      assert run == [run[0]] + run[1..];
    }
  }

  /**
   * From the section of a Disconnect of n on, as long as no connect of n begins,
   * no step calls a manager's Connect for n, n is neither pending nor blocked nor
   * wanted, and once the retry sequences that were running have ended it is not held.
   */
  lemma DisconnectIsFinal(s: Sys, n: Name, t: nat, run: seq<Event>)
    requires Sound(s) && Enabled(s, On(n, t, UserStop(Clear)))
    requires IsRun(Next(s, On(n, t, UserStop(Clear))), run) && forall e | e in run :: NoNewConnect(e, n)
    ensures forall e | e in run :: !CallsConnect(e, n)
    ensures var y := TunnelAt(After(Next(s, On(n, t, UserStop(Clear))), run), n);
      && OffSlot(y.slot)
      && Retriers(y) <= Retriers(TunnelAt(s, n))
      && (Retriers(y) == {} ==> !IsHeld(y.slot))
  {
    var e := On(n, t, UserStop(Clear));
    var z := Next(s, e);
    SoundStep(s, e);
    ClearTurnsOff(s, n, t);
    StaysOff(z, run, n);
    var y := TunnelAt(After(z, run), n);
    if Retriers(y) == {} {
      forall u ensures u !in Holders(y) { assert u !in Retriers(y); }
      assert Holders(y) == {};
    }
  }
}
