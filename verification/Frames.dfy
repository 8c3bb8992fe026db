// What each kind of step leaves as it was.
module Frames {
  import opened Common
  import opened Rules
  import opened KillSwitch
  import opened HelperRuns

  /** Thread u is the same in both, or in neither. */
  predicate SameAt(x: Tunnel, y: Tunnel, u: nat) {
    (u in y.threads <==> u in x.threads) && (u in x.threads ==> y.threads[u] == x.threads[u])
  }

  /** Or a sequence that has been cancelled. */
  predicate AtMostCancelled(x: Tunnel, y: Tunnel, u: nat) {
    SameAt(x, y, u) || (u in x.threads && x.threads[u].Retrier? && SameAt(Put(x, u, x.threads[u].(cancelled := true)), y, u))
  }

  predicate Waits(stage: ConnectStage) { stage.Arriving? || stage.ArrivingInWindow? || stage.Checked? }

  /** A connect that waits, or is turned away, touches only the lookup windows. */
  predicate OnlyWaits(e: ConnectEvent) { e.Arrive? || e.OpenWindow? || e.CloseWindow? || e.Acquire? || e.Reject? }

  lemma UserFrame(c: Context, x: Tunnel, t: nat, e: ConnectEvent, u: nat)
    requires ConnectEnabled(c, x, t, e) && u != t
    ensures var y := ConnectStep(c, x, t, e).tunnel;
      y == x.(slot := y.slot, threads := y.threads) && SameAt(x, y, u)
  {}

  lemma WaitingFrame(c: Context, x: Tunnel, t: nat, e: ConnectEvent)
    requires ConnectEnabled(c, x, t, e) && OnlyWaits(e)
    ensures var y := ConnectStep(c, x, t, e).tunnel;
      && y.slot == x.slot.(windows := y.slot.windows, servers := y.slot.servers)
      && (t in y.threads ==> y.threads[t].Connector? && Waits(y.threads[t].connectAt))
  {}

  lemma CallFrame(c: Context, x: Tunnel, t: nat, e: CallEvent, u: nat)
    requires CallEnabled(c, x, t, e) && u != t
    ensures var y := CallStep(c, x, t, e).tunnel;
      y == x.(entry := y.entry, wg := y.wg, threads := y.threads) && SameAt(x, y, u)
  {}

  /** The calling thread moves on, or is a connect that has launched openvpn. */
  lemma CallerMoves(c: Context, x: Tunnel, t: nat, e: CallEvent)
    requires CallEnabled(c, x, t, e)
    ensures var y := CallStep(c, x, t, e).tunnel;
      if t in y.threads then
        var th, now := x.threads[t], y.threads[t];
        if th.Connector? then
          now == th.(connectAt := now.connectAt) &&
          (now.connectAt.InConnect? || now.connectAt.Failed? || (now.connectAt.Settling? && e.Finish? && e.ok && CallProtocol(th) == WireGuard))
        else now.Retrier? && now == th.(retryAt := now.retryAt, attempt := now.attempt)
      else x.threads[t].Connector? && e.Finish? && e.ok && CallProtocol(x.threads[t]) == OpenVPN
  {}

  lemma TearFrame(c: Context, x: Tunnel, t: nat, e: TearEvent, u: nat)
    requires TearEnabled(c, x, t, e) && u != t
    ensures var y := TearStep(c, x, t, e);
      y == x.(entry := y.entry, slot := y.slot, threads := y.threads) && SameAt(x, y, u)
  {}

  /** What a sequence makes of the slot. */
  function RetrySlot(c: Context, x: Tunnel, e: RetryEvent): Slot {
    match e
    case Hold => HoldSlot(x.slot)
    case OpenRetryWindow(resolvers) => OpenWindowSlot(x.slot, resolvers)
    case CloseRetryWindow(answers) => StoreResolvedSlot(CloseWindowSlot(x.slot), answers)
    case Release => ReleaseSlot(x.slot, c.killSwitch, IsUp(x))
    case _ => x.slot
  }

  lemma RetrySlotIs(c: Context, x: Tunnel, t: nat, e: RetryEvent)
    requires RetryEnabled(c, x, t, e)
    ensures RetryStep(c, x, t, e).tunnel.slot == RetrySlot(c, x, e)
  {}

  /** It leaves the request alone. */
  lemma RetryRequest(c: Context, x: Tunnel, t: nat, e: RetryEvent)
    requires RetryEnabled(c, x, t, e)
    ensures var y := RetryStep(c, x, t, e).tunnel.slot;
      SameRequest(x.slot, y)
  {
    RetrySlotIs(c, x, t, e);
    SectionsKeepRequest(x.slot, if e.OpenRetryWindow? then e.resolvers else [], if e.CloseRetryWindow? then e.answers else [], c.killSwitch, IsUp(x));
    hide RetryStep, RetryEnabled, HoldSlot, OpenWindowSlot, CloseWindowSlot, StoreResolvedSlot, ReleaseSlot, IsUp;
  }

  predicate SameRequest(x: Slot, y: Slot) {
    y.wgConfig == x.wgConfig && y.ovpnConfig == x.ovpnConfig && y.auto == x.auto && y.dying == x.dying && y.epoch == x.epoch
  }

  lemma SectionsKeepRequest(x: Slot, resolvers: seq<string>, answers: seq<Literal>, killSwitch: bool, up: bool)
    ensures SameRequest(x, HoldSlot(x)) && SameRequest(x, OpenWindowSlot(x, resolvers))
    ensures SameRequest(x, StoreResolvedSlot(CloseWindowSlot(x), answers)) && SameRequest(x, ReleaseSlot(x, killSwitch, up))
  {}

  /** One that holds gives its hold back only with its release. */
  lemma HolderFrame(c: Context, x: Tunnel, t: nat, e: RetryEvent)
    requires RetryEnabled(c, x, t, e) && !e.Hold?
    ensures var y := RetryStep(c, x, t, e).tunnel.slot;
      && y.pending == x.slot.pending && y.through == x.slot.through
      && (!e.Release? ==> y.held == x.slot.held && y.blocked == x.slot.blocked)
  {
    RetrySlotIs(c, x, t, e);
    hide RetryStep, RetryEnabled;
  }

  /** A sequence tells a process to exit and takes a stale engine down, no more. */
  lemma RetryManagers(c: Context, x: Tunnel, t: nat, e: RetryEvent)
    requires RetryEnabled(c, x, t, e)
    ensures var y := RetryStep(c, x, t, e).tunnel;
      && (y.entry == x.entry || (e.Timeout? && x.entry.Some? && y.entry == Some(x.entry.value.(toldToExit := true))))
      && (y.wg == x.wg || (LiveWg(x) && y.wg.None?))
  {}

  /** Another thread is at most cancelled. */
  lemma RetryFrame(c: Context, x: Tunnel, t: nat, e: RetryEvent, u: nat)
    requires RetryEnabled(c, x, t, e) && u != t
    ensures AtMostCancelled(x, RetryStep(c, x, t, e).tunnel, u)
  {}

  lemma WgFrame(c: Context, x: Tunnel, t: nat, e: WgEvent, u: nat)
    requires WgEnabled(c, x, t, e) && u != t
    ensures var y := WgStep(c, x, t, e);
      y == x.(wg := y.wg, slot := y.slot, threads := y.threads) && SameAt(x, y, u)
  {}

  lemma RetryLeavesOthers(c: Context, x: Tunnel, t: nat, e: RetryEvent, u: nat)
    requires RetryEnabled(c, x, t, e) && u != t && (u in x.threads ==> !x.threads[u].Retrier?)
    ensures SameAt(x, RetryStep(c, x, t, e).tunnel, u)
  {
    RetryFrame(c, x, t, e, u);
    hide RetryStep;
  }

  /** A connect is inside a manager's Connect by its call alone. */
  lemma UserOwn(c: Context, x: Tunnel, t: nat, e: ConnectEvent)
    requires ConnectEnabled(c, x, t, e)
    ensures if e.Arrive? then t == c.id else t in x.threads && x.threads[t].Connector? && !x.threads[t].connectAt.InConnect?
    ensures var y := ConnectStep(c, x, t, e).tunnel; t in y.threads ==> y.threads[t].Connector? && !y.threads[t].connectAt.InConnect?
  {}

  /** So is a sequence, and it is about to call only what it has found wanted. */
  lemma RetryOwn(c: Context, x: Tunnel, t: nat, e: RetryEvent)
    requires RetryEnabled(c, x, t, e)
    ensures if e.HealthCheck? then t == c.id else t in x.threads && x.threads[t].Retrier?
    ensures var y := RetryStep(c, x, t, e).tunnel;
      t in y.threads ==>
        && y.threads[t].Retrier? && !y.threads[t].retryAt.Connecting?
        && (y.threads[t].retryAt.Calling? ==>
              e.Check? && Auto(x.slot) && Wanted(x.slot) && y.threads[t].retryAt.proto == if x.slot.wgConfig.Some? then WireGuard else OpenVPN)
  {}

  /** Taking the lock for a disconnect, and giving it back, touch the retry registry alone. */
  lemma StopFrame(c: Context, x: Tunnel, t: nat, e: DisconnectEvent, u: nat)
    requires DisconnectEnabled(c, x, t, e) && (e.AcquireToStop? || e.Done?)
    ensures var y := DisconnectStep(c, x, t, e).tunnel;
      && y == x.(retry := y.retry, threads := y.threads)
      && (u != t ==> AtMostCancelled(x, y, u))
      && (if e.Done? then t in x.threads && x.threads[t].Disconnector? && t !in y.threads
          else t == c.id && t in y.threads && y.threads[t].Disconnector?)
  {}
}
