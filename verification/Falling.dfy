// Falls: runs without a user action that leave a tunnel unprotected, one step after
// another from a reachable state in which it is safe.
module Falling {
  import opened Common
  import opened Rules
  import opened KillSwitch
  import opened HelperRuns
  import opened Steps
  import opened HelperInvariants
  import opened HoldAccounting
  import opened FailClosed
  import opened Exposure

  /** Neither a user action on n, nor a CONNECTED of it without a server, nor the kill switch going off. */
  predicate Calm(e: Event, n: Name) {
    match e
    case OnPolicy(change) => change.SetKillSwitch? && change.loaded ==> change.on
    case On(m, _, step) => m == n ==> !Disturbs(step)
  }

  ghost predicate FallsBy(s: Sys, n: Name, run: seq<Event>) {
    IsRun(s, run) && (forall e | e in run :: Calm(e, n)) && !Protected(TunnelAt(After(s, run), n))
  }

  /** Some run without user action leaves n unprotected. */
  ghost predicate Falls(s: Sys, n: Name) { exists run :: FallsBy(s, n, run) }

  lemma {:induction false} CarefulIsCalm(s: Sys, run: seq<Event>, n: Name)
    requires IsRun(s, run) && CarefulRun(s, run, n)
    ensures forall e | e in run :: Calm(e, n)
    decreases |run|
  {
    if run != [] {
      CarefulIsCalm(Next(s, run[0]), run[1..], n);
      assert run == [run[0]] + run[1..];
    }
  }

  lemma OpensFalls(s: Sys, n: Name)
    requires Opens(s, n)
    ensures Falls(s, n)
  {
    var run :| OpensBy(s, n, run);
    CarefulIsCalm(s, run, n);
    assert FallsBy(s, n, run);
  }

  lemma FallsLater(s: Sys, n: Name, t: nat, step: Step)
    requires Enabled(s, On(n, t, step)) && !Disturbs(step) && Falls(Next(s, On(n, t, step)), n)
    ensures Falls(s, n)
  {
    var e := On(n, t, step);
    var run :| FallsBy(Next(s, e), n, run);
    var whole := [e] + run;
    assert whole[1..] == run;
    assert FallsBy(s, n, whole);
  }

  // ---- the way to a fall ----

  /** A reachable state in which tunnel n is safe. */
  ghost predicate Station(s: Sys, n: Name) { Reachable(s) && s.killSwitch && Safe(TunnelAt(s, n)) }

  lemma Onward(s: Sys, n: Name, t: nat, step: Step)
    requires Station(s, n) && Enabled(s, On(n, t, step)) && Careful(TunnelAt(s, n), step)
    ensures var z := Next(s, On(n, t, step)); Station(z, n) && (Falls(z, n) ==> Falls(s, n))
  {
    var e := On(n, t, step);
    ReachableIsSound(s);
    hide Safe, Sound, Enabled, Next, Exposes;
    ReachableNext(s, e);
    SafeStep(s, e, n);
    if Falls(Next(s, e), n) { FallsLater(s, n, t, step); }
  }

  lemma CallOnward(s: Sys, n: Name, t: nat, e: CallEvent) returns (z: Sys)
    requires Station(s, n) && CallEnabled(ContextOf(s), TunnelAt(s, n), t, e) && Careful(TunnelAt(s, n), Call(e))
    ensures Station(z, n) && Stepped(s, n, CallStep(ContextOf(s), TunnelAt(s, n), t, e).tunnel,
                CallStep(ContextOf(s), TunnelAt(s, n), t, e).mu, z) &&
      (Falls(z, n) ==> Falls(s, n))
  {
    CallGoes(s, n, t, e);
    hide *;
    Onward(s, n, t, Call(e));
    z := Next(s, On(n, t, Call(e)));
  }

  lemma RetryOnward(s: Sys, n: Name, t: nat, e: RetryEvent) returns (z: Sys)
    requires Station(s, n) && RetryEnabled(ContextOf(s), TunnelAt(s, n), t, e) && Careful(TunnelAt(s, n), Retry(e))
    ensures Station(z, n) && Stepped(s, n, RetryStep(ContextOf(s), TunnelAt(s, n), t, e).tunnel,
                RetryStep(ContextOf(s), TunnelAt(s, n), t, e).mu, z) &&
      (Falls(z, n) ==> Falls(s, n))
  {
    RetryGoes(s, n, t, e);
    hide *;
    Onward(s, n, t, Retry(e));
    z := Next(s, On(n, t, Retry(e)));
  }

  lemma OvpnOnward(s: Sys, n: Name, t: nat, e: OvpnEvent) returns (z: Sys)
    requires Station(s, n) && OvpnEnabled(TunnelAt(s, n), e) && Careful(TunnelAt(s, n), Ovpn(e))
    ensures Station(z, n) && Stepped(s, n, OvpnStep(TunnelAt(s, n), e), s.mu, z) && (Falls(z, n) ==> Falls(s, n))
  {
    OvpnGoes(s, n, t, e);
    hide *;
    Onward(s, n, t, Ovpn(e));
    z := Next(s, On(n, t, Ovpn(e)));
  }

  lemma TearOnward(s: Sys, n: Name, t: nat, e: TearEvent) returns (z: Sys)
    requires Station(s, n) && TearEnabled(ContextOf(s), TunnelAt(s, n), t, e) && Careful(TunnelAt(s, n), Tear(e))
    ensures Station(z, n) && Stepped(s, n, TearStep(ContextOf(s), TunnelAt(s, n), t, e), s.mu, z) && (Falls(z, n) ==> Falls(s, n))
  {
    TearGoes(s, n, t, e);
    hide *;
    Onward(s, n, t, Tear(e));
    z := Next(s, On(n, t, Tear(e)));
  }

  lemma WgOnward(s: Sys, n: Name, t: nat, e: WgEvent) returns (z: Sys)
    requires Station(s, n) && WgEnabled(ContextOf(s), TunnelAt(s, n), t, e) && Careful(TunnelAt(s, n), Wg(e))
    ensures Station(z, n) && Stepped(s, n, WgStep(ContextOf(s), TunnelAt(s, n), t, e), s.mu, z) && (Falls(z, n) ==> Falls(s, n))
  {
    WgGoes(s, n, t, e);
    hide *;
    Onward(s, n, t, Wg(e));
    z := Next(s, On(n, t, Wg(e)));
  }

  /** An exposing step is the beginning of a fall. */
  lemma ExposingFalls(s: Sys, n: Name, t: nat, step: Step)
    requires Station(s, n) && StepEnabled(ContextOf(s), TunnelAt(s, n), t, step) && Exposes(TunnelAt(s, n), step) && !Disturbs(step)
    ensures Falls(s, n)
  {
    Goes(s, n, t, step);
    hide Stepped, Enabled, Next, Exposes, Safe, Reachable, Opens;
    OpensExactlyIfExposed(s, n, t, step);
    OpensFalls(Next(s, On(n, t, step)), n);
    FallsLater(s, n, t, step);
  }
}
