// The watchdog that recycles an OpenVPN process stuck in its own reconnect
// (internal/helper/helper.go).
module Watchdog {
  import opened Common

  type Name = string

  /** The time, in any unit, a tunnel may be stuck. */
  const STUCK_TIMEOUT := 120

  datatype Candidate = Candidate(name: Name, stuck: bool, awaiting: bool)

  /** What one tick sees: each listed tunnel once, and who has auto-reconnect on. */
  datatype Tick = Tick(now: int, listed: seq<Candidate>, auto: set<Name>)

  ghost predicate Distinct(listed: seq<Candidate>) {
    forall i, j | 0 <= i < j < |listed| :: listed[i].name != listed[j].name
  }

  /** Listed, stuck after having connected, with auto-reconnect, and not awaiting credentials. */
  ghost predicate Eligible(t: Tick, n: Name) {
    n in t.auto && exists c | c in t.listed :: c.name == n && c.stuck && !c.awaiting
  }

  /** One tick for one tunnel: since when it is stuck, before and after. */
  ghost function SinceAfter(since: Option<int>, t: Tick, n: Name): Option<int> {
    if !Eligible(t, n) then None
    else if since.None? then Some(t.now)
    else if t.now - since.value >= STUCK_TIMEOUT then None
    else since
  }

  ghost predicate Recycles(since: Option<int>, t: Tick, n: Name) {
    Eligible(t, n) && since.Some? && t.now - since.value >= STUCK_TIMEOUT
  }

  function Find(since: map<Name, int>, n: Name): Option<int> { if n in since then Some(since[n]) else None }

  class Watchdog {
    var stuckSince: map<Name, int>

    constructor ()
      ensures stuckSince == map[]
    {
      stuckSince := map[];
    }

    /** Updates the clocks and returns the tunnels to recycle. */
    method Check(t: Tick) returns (recycle: seq<Name>)
      requires Distinct(t.listed)
      modifies this
      ensures forall n :: Find(stuckSince, n) == SinceAfter(Find(old(stuckSince), n), t, n)
      ensures forall n :: n in recycle <==> Recycles(Find(old(stuckSince), n), t, n)
    {
      recycle := [];
      var seen: set<Name> := {};
      for i := 0 to |t.listed|
        invariant forall n :: n in seen <==> exists c | c in t.listed[..i] :: c.name == n
        invariant forall n :: Find(stuckSince, n) == if n in seen then SinceAfter(Find(old(stuckSince), n), t, n) else Find(old(stuckSince), n)
        invariant forall n :: n in recycle <==> n in seen && Recycles(Find(old(stuckSince), n), t, n)
      {
        var c := t.listed[i];
        assert t.listed[..i+1] == t.listed[..i] + [c];
        assert c in t.listed && c.name !in seen;
        OneCandidate(t, i);
        seen := seen + {c.name};
        if !c.stuck || c.awaiting || c.name !in t.auto {
          stuckSince := stuckSince - {c.name};
          continue;
        }
        if c.name !in stuckSince {
          stuckSince := stuckSince[c.name := t.now];
          continue;
        }
        if t.now - stuckSince[c.name] >= STUCK_TIMEOUT {
          stuckSince := stuckSince - {c.name};
          recycle := recycle + [c.name];
        }
      }
      assert t.listed[..|t.listed|] == t.listed;
      stuckSince := map n | n in stuckSince && n in seen :: stuckSince[n];
    }
  }

  /** A listed tunnel is eligible exactly if its one candidate says so. */
  lemma OneCandidate(t: Tick, i: nat)
    requires Distinct(t.listed) && i < |t.listed|
    ensures var c := t.listed[i]; Eligible(t, c.name) <==> c.name in t.auto && c.stuck && !c.awaiting
  {
    assert t.listed[i] in t.listed;
  }

  // ---- traces ----

  /** Since when the tunnel has been stuck, after the first i ticks. */
  ghost function SinceAt(ticks: seq<Tick>, i: nat, n: Name): Option<int>
    requires i <= |ticks|
  {
    if i == 0 then None else SinceAfter(SinceAt(ticks, i - 1, n), ticks[i-1], n)
  }

  /** Tick i recycles the tunnel. */
  ghost predicate RecycledAt(ticks: seq<Tick>, i: nat, n: Name)
    requires i < |ticks|
  {
    Recycles(SinceAt(ticks, i, n), ticks[i], n)
  }

  ghost predicate Ordered(ticks: seq<Tick>) { forall i, j | 0 <= i <= j < |ticks| :: ticks[i].now <= ticks[j].now }

  ghost predicate EligibleThroughout(ticks: seq<Tick>, s: nat, t: nat, n: Name)
    requires t < |ticks|
  {
    forall k | s <= k <= t :: Eligible(ticks[k], n)
  }

  /** A clock that runs was set at a tick from which the tunnel has been eligible and not recycled. */
  lemma {:induction false} ClockStarted(ticks: seq<Tick>, i: nat, n: Name) returns (s: nat)
    requires i <= |ticks| && SinceAt(ticks, i, n).Some?
    ensures s < i && ticks[s].now == SinceAt(ticks, i, n).value
    ensures EligibleThroughout(ticks, s, i - 1, n)
    ensures forall k | s <= k < i :: !RecycledAt(ticks, k, n)
  {
    var before := SinceAt(ticks, i - 1, n);
    if before.None? {
      s := i - 1;
    } else {
      s := ClockStarted(ticks, i - 1, n);
    }
  }

  /** A recycle comes only after the tunnel was eligible at every tick of a whole timeout, none of which recycled it. */
  lemma RecycleIsDue(ticks: seq<Tick>, t: nat, n: Name) returns (s: nat)
    requires t < |ticks| && RecycledAt(ticks, t, n)
    ensures s < t && ticks[t].now - ticks[s].now >= STUCK_TIMEOUT
    ensures EligibleThroughout(ticks, s, t, n)
    ensures forall k | s <= k < t :: !RecycledAt(ticks, k, n)
  {
    s := ClockStarted(ticks, t, n);
  }

  /** Two recycles of one tunnel are at least a timeout apart. */
  lemma RecyclesAreApart(ticks: seq<Tick>, t: nat, u: nat, n: Name)
    requires Ordered(ticks) && t < u < |ticks| && RecycledAt(ticks, t, n) && RecycledAt(ticks, u, n)
    ensures ticks[u].now - ticks[t].now >= STUCK_TIMEOUT
  {
    var s := RecycleIsDue(ticks, u, n);
    assert s > t;
  }

  /** While the tunnel stays eligible and is not recycled, its clock was set no later than the first such tick. */
  lemma {:induction false} ClockRuns(ticks: seq<Tick>, s: nat, t: nat, n: Name)
    requires Ordered(ticks) && s <= t < |ticks| && EligibleThroughout(ticks, s, t, n)
    requires forall k | s <= k <= t :: !RecycledAt(ticks, k, n)
    ensures SinceAt(ticks, t + 1, n).Some? && SinceAt(ticks, t + 1, n).value <= ticks[s].now
  {
    assert Eligible(ticks[t], n) && !RecycledAt(ticks, t, n);
    var before := SinceAt(ticks, t, n);
    if before.Some? && s == t {
      var first := ClockStarted(ticks, t, n);
      assert ticks[first].now <= ticks[s].now;
    }
    if s < t {
      ClockRuns(ticks, s, t - 1, n);
    }
  }

  /** And a tunnel eligible for a whole timeout is recycled by the end of it. */
  lemma StuckIsRecycled(ticks: seq<Tick>, s: nat, t: nat, n: Name)
    requires Ordered(ticks) && s < t < |ticks| && EligibleThroughout(ticks, s, t, n)
    requires ticks[t].now - ticks[s].now >= STUCK_TIMEOUT
    ensures exists k | s <= k <= t :: RecycledAt(ticks, k, n)
  {
    if !(exists k | s <= k < t :: RecycledAt(ticks, k, n)) {
      ClockRuns(ticks, s, t - 1, n);
      assert Eligible(ticks[t], n);
      assert RecycledAt(ticks, t, n);
    }
  }
}
