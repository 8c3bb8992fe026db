// One step of a run at a time: what each kind of event makes of the state, without
// the other kinds.
module Steps {
  import opened Common
  import opened HelperRuns
  import opened KillSwitch

  /** From s to z, tunnel n became y and the owner of connectMu mu; nothing else changed but the next id. */
  ghost predicate Stepped(s: Sys, n: Name, y: Tunnel, mu: Option<nat>, z: Sys) {
    && TunnelAt(z, n) == y && z.mu == mu
    && z.killSwitch == s.killSwitch && z.maxAttempts == s.maxAttempts && z.nextId == s.nextId + 1
    && forall m | m != n :: TunnelAt(z, m) == TunnelAt(s, m)
  }

  lemma Goes(s: Sys, n: Name, t: nat, step: Step)
    requires StepEnabled(ContextOf(s), TunnelAt(s, n), t, step)
    ensures Enabled(s, On(n, t, step))
    ensures var out := TunnelStep(ContextOf(s), TunnelAt(s, n), t, step); Stepped(s, n, out.tunnel, out.mu, Next(s, On(n, t, step)))
  {
    hide StepEnabled, TunnelStep;
  }

  lemma UserGoes(s: Sys, n: Name, t: nat, e: ConnectEvent)
    requires ConnectEnabled(ContextOf(s), TunnelAt(s, n), t, e)
    ensures Enabled(s, On(n, t, User(e))) && StepEnabled(ContextOf(s), TunnelAt(s, n), t, User(e))
    ensures Stepped(s, n, ConnectStep(ContextOf(s), TunnelAt(s, n), t, e).tunnel,
                ConnectStep(ContextOf(s), TunnelAt(s, n), t, e).mu, Next(s, On(n, t, User(e))))
  {
    hide Stepped, Enabled, Next;
    Goes(s, n, t, User(e));
  }

  lemma CallGoes(s: Sys, n: Name, t: nat, e: CallEvent)
    requires CallEnabled(ContextOf(s), TunnelAt(s, n), t, e)
    ensures Enabled(s, On(n, t, Call(e))) && StepEnabled(ContextOf(s), TunnelAt(s, n), t, Call(e))
    ensures Stepped(s, n, CallStep(ContextOf(s), TunnelAt(s, n), t, e).tunnel,
                CallStep(ContextOf(s), TunnelAt(s, n), t, e).mu, Next(s, On(n, t, Call(e))))
  {
    hide Stepped, Enabled, Next;
    Goes(s, n, t, Call(e));
  }

  lemma StopGoes(s: Sys, n: Name, t: nat, e: DisconnectEvent)
    requires DisconnectEnabled(ContextOf(s), TunnelAt(s, n), t, e)
    ensures Enabled(s, On(n, t, UserStop(e))) && StepEnabled(ContextOf(s), TunnelAt(s, n), t, UserStop(e))
    ensures Stepped(s, n, DisconnectStep(ContextOf(s), TunnelAt(s, n), t, e).tunnel,
                DisconnectStep(ContextOf(s), TunnelAt(s, n), t, e).mu, Next(s, On(n, t, UserStop(e))))
  {
    hide Stepped, Enabled, Next;
    Goes(s, n, t, UserStop(e));
  }

  lemma RetryGoes(s: Sys, n: Name, t: nat, e: RetryEvent)
    requires RetryEnabled(ContextOf(s), TunnelAt(s, n), t, e)
    ensures Enabled(s, On(n, t, Retry(e))) && StepEnabled(ContextOf(s), TunnelAt(s, n), t, Retry(e))
    ensures Stepped(s, n, RetryStep(ContextOf(s), TunnelAt(s, n), t, e).tunnel,
                RetryStep(ContextOf(s), TunnelAt(s, n), t, e).mu, Next(s, On(n, t, Retry(e))))
  {
    hide Stepped, Enabled, Next;
    Goes(s, n, t, Retry(e));
  }

  lemma OvpnGoes(s: Sys, n: Name, t: nat, e: OvpnEvent)
    requires OvpnEnabled(TunnelAt(s, n), e)
    ensures Enabled(s, On(n, t, Ovpn(e))) && StepEnabled(ContextOf(s), TunnelAt(s, n), t, Ovpn(e))
    ensures Stepped(s, n, OvpnStep(TunnelAt(s, n), e), s.mu, Next(s, On(n, t, Ovpn(e))))
  {
    hide Stepped, Enabled, Next;
    Goes(s, n, t, Ovpn(e));
  }

  lemma TearGoes(s: Sys, n: Name, t: nat, e: TearEvent)
    requires TearEnabled(ContextOf(s), TunnelAt(s, n), t, e)
    ensures Enabled(s, On(n, t, Tear(e))) && StepEnabled(ContextOf(s), TunnelAt(s, n), t, Tear(e))
    ensures Stepped(s, n, TearStep(ContextOf(s), TunnelAt(s, n), t, e), s.mu, Next(s, On(n, t, Tear(e))))
  {
    hide Stepped, Enabled, Next;
    Goes(s, n, t, Tear(e));
  }

  lemma WgGoes(s: Sys, n: Name, t: nat, e: WgEvent)
    requires WgEnabled(ContextOf(s), TunnelAt(s, n), t, e)
    ensures Enabled(s, On(n, t, Wg(e))) && StepEnabled(ContextOf(s), TunnelAt(s, n), t, Wg(e))
    ensures Stepped(s, n, WgStep(ContextOf(s), TunnelAt(s, n), t, e), s.mu, Next(s, On(n, t, Wg(e))))
  {
    hide Stepped, Enabled, Next;
    Goes(s, n, t, Wg(e));
  }
}
