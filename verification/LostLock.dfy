// A reconnect attempt takes and gives back connectMu without a deferred unlock: if a
// manager panics in between, the lock is never given back.
module LostLock {
  import opened Common
  import opened KillSwitch
  import opened HelperRuns
  import opened Steps
  import opened HelperInvariants

  /** connectMu is held by a thread that has ended. */
  ghost predicate Lost(s: Sys) {
    s.mu.Some? && s.mu.value < s.nextId && forall n :: s.mu.value !in TunnelAt(s, n).threads
  }

  /** A connect, a disconnect or a reconnect attempt gets connectMu. */
  predicate TakesLock(step: Step) { step == User(Acquire) || step == UserStop(AcquireToStop) || step == Retry(Enter) }

  lemma LostStep(s: Sys, e: Event)
    requires Sound(s) && Enabled(s, e) && Lost(s)
    ensures Lost(Next(s, e)) && Next(s, e).mu == s.mu
  {
    match e
    case OnPolicy(change) => forall n ensures s.mu.value !in TunnelAt(PolicyStep(s, change), n).threads { PolicyFrame(s, change, n); }
    case On(n, t, step) => LostTunnelStep(s, n, t, step);
  }

  lemma LostTunnelStep(s: Sys, n: Name, t: nat, step: Step)
    requires Sound(s) && Enabled(s, On(n, t, step)) && Lost(s)
    ensures Lost(Next(s, On(n, t, step))) && Next(s, On(n, t, step)).mu == s.mu
  {
    var c, x := ContextOf(s), TunnelAt(s, n);
    assert TidyAt(s, n) && LockFacts(c.mu, c.id, x, t);
    Goes(s, n, t, step);
    StepMu(c, x, t, step);
    hide Next, Sound, LockFacts, TidyAt;
    if s.mu.value in TunnelStep(c, x, t, step).tunnel.threads { StepThreads(c, x, t, step, s.mu.value); }
  }

  lemma {:induction false} LostForever(s: Sys, run: seq<Event>)
    requires Sound(s) && IsRun(s, run) && Lost(s)
    ensures After(s, run).mu == s.mu
    decreases |run|
  {
    hide Sound, Lost;
    if run != [] {
      LostStep(s, run[0]);
      SoundStep(s, run[0]);
      LostForever(Next(s, run[0]), run[1..]);
    }
  }

  /** Sequence u is between lock and unlock. */
  predicate HasLock(s: Sys, n: Name, u: nat) {
    u in TunnelAt(s, n).threads && TunnelAt(s, n).threads[u].Retrier? && Locked(TunnelAt(s, n).threads[u])
  }

  /** Its attempt panics, and it gives its hold back and ends. */
  ghost function AfterPanic(s: Sys, n: Name, u: nat): Sys
    requires HasLock(s, n, u)
  {
    Next(Next(s, On(n, u, Retry(Panic))), On(n, u, Retry(Release)))
  }

  lemma PanicIsSound(s: Sys, n: Name, u: nat)
    requires Sound(s) && HasLock(s, n, u)
    ensures Sound(AfterPanic(s, n, u))
  {
    RetryGoes(s, n, u, Panic);
    var s1 := Next(s, On(n, u, Retry(Panic)));
    RetryGoes(s1, n, u, Release);
    hide Next, Enabled, Sound;
    SoundStep(s, On(n, u, Retry(Panic)));
    SoundStep(s1, On(n, u, Retry(Release)));
  }

  /** The panic keeps connectMu. */
  lemma Panics(s: Sys, n: Name, u: nat) returns (z: Sys)
    requires HasLock(s, n, u)
    ensures z == Next(s, On(n, u, Retry(Panic))) && z.mu == s.mu && z.nextId == s.nextId + 1
    ensures u in TunnelAt(z, n).threads && TunnelAt(z, n).threads[u].Retrier? && TunnelAt(z, n).threads[u].retryAt.Ending?
    ensures forall m | m != n :: TunnelAt(z, m) == TunnelAt(s, m)
  {
    RetryGoes(s, n, u, Panic);
    hide Next, Enabled;
    z := Next(s, On(n, u, Retry(Panic)));
  }

  /** And so does the end of the sequence. */
  lemma Releases(s: Sys, n: Name, u: nat) returns (z: Sys)
    requires u in TunnelAt(s, n).threads && TunnelAt(s, n).threads[u].Retrier? && TunnelAt(s, n).threads[u].retryAt.Ending?
    ensures z == Next(s, On(n, u, Retry(Release))) && z.mu == s.mu && z.nextId == s.nextId + 1
    ensures u !in TunnelAt(z, n).threads && forall m | m != n :: TunnelAt(z, m) == TunnelAt(s, m)
  {
    RetryGoes(s, n, u, Release);
    hide Next, Enabled;
    z := Next(s, On(n, u, Retry(Release)));
  }

  lemma PanicEnds(s: Sys, n: Name, u: nat)
    requires Sound(s) && HasLock(s, n, u)
    ensures Lost(AfterPanic(s, n, u)) && AfterPanic(s, n, u).mu == Some(u)
  {
    assert TidyAt(s, n) && LockFacts(s.mu, s.nextId, TunnelAt(s, n), u);
    assert forall m | m != n :: u !in TunnelAt(s, m).threads;
    hide Sound, LockFacts, TidyAt;
    var s1 := Panics(s, n, u);
    var z := Releases(s1, n, u);
    assert z == AfterPanic(s, n, u);
    hide Next, Enabled;
  }

  /**
   * After a panic in an attempt that has connectMu: in every run from then on,
   * nothing gets connectMu, for whatever tunnel.
   */
  lemma PanicLosesLock(s: Sys, n: Name, u: nat, run: seq<Event>)
    requires Sound(s) && HasLock(s, n, u) && IsRun(AfterPanic(s, n, u), run)
    ensures var z := After(AfterPanic(s, n, u), run);
      z.mu == Some(u) && forall m, t, step | TakesLock(step) :: !Enabled(z, On(m, t, step))
  {
    PanicIsSound(s, n, u);
    PanicEnds(s, n, u);
    hide Sound, Lost, AfterPanic;
    LostForever(AfterPanic(s, n, u), run);
    assert After(AfterPanic(s, n, u), run).mu.Some?;
  }
}
