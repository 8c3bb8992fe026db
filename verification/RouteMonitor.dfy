// The route monitor's debounce timer and the count of callbacks that Stop waits
// for (internal/network/monitor_darwin.go).
module RouteMonitor {
  import opened Common

  /** A debounce callback: fired, then either re-applying or skipping. */
  datatype Callback = Fired | Reapplying | Skipping

  /** The monitor as a value, and its steps. */
  datatype State = State(running: bool, stopped: bool, armed: bool, pending: int, callbacks: map<nat, Callback>, waiting: bool)

  datatype Event = Start(launched: bool) | Trigger | Fire(c: nat) | Check(c: nat) | Finish(c: nat) | BeginStop | EndStop

  predicate Enabled(s: State, e: Event) {
    match e
    case Fire(c) => s.armed && c !in s.callbacks
    case Check(c) => c in s.callbacks && s.callbacks[c] == Fired
    case Finish(c) => c in s.callbacks && s.callbacks[c] != Fired
    case EndStop => s.waiting && s.pending == 0
    case _ => true
  }

  function Next(s: State, e: Event): State
    requires Enabled(s, e)
  {
    match e
    case Start(launched) => s.(running := s.running || (!s.stopped && launched))
    case Trigger =>
      if !s.running then s else s.(armed := true, pending := (if s.armed then s.pending - 1 else s.pending) + 1)
    case Fire(c) => s.(armed := false, callbacks := s.callbacks[c := Fired])
    case Check(c) => s.(callbacks := s.callbacks[c := if s.running then Reapplying else Skipping])
    case Finish(c) => s.(pending := s.pending - 1, callbacks := s.callbacks - {c})
    case BeginStop =>
      if !s.running then s.(stopped := true)
      else s.(stopped := true, running := false, armed := false, waiting := true,
              pending := if s.armed then s.pending - 1 else s.pending)
    case EndStop => s.(waiting := false)
  }

  predicate Sound(s: State) {
    && s.pending == (if s.armed then 1 else 0) + |s.callbacks|
    && (s.stopped ==> !s.running) && (s.armed ==> s.running) && (s.waiting ==> s.stopped)
  }

  lemma StepSound(s: State, e: Event)
    requires Sound(s) && Enabled(s, e)
    ensures Sound(Next(s, e)) && (s.stopped ==> Next(s, e).stopped)
  {
    match e
    case Check(c) => assert Next(s, e).callbacks.Keys == s.callbacks.Keys;
    case Finish(c) => assert Next(s, e).callbacks.Keys == s.callbacks.Keys - {c};
    case _ =>
  }

  class Monitor {
    var running: bool
    var stopped: bool
    var armed: bool
    var pending: int
    ghost var callbacks: map<nat, Callback>
    ghost var waiting: bool

    ghost function View(): State reads this { State(running, stopped, armed, pending, callbacks, waiting) }

    constructor ()
      ensures Sound(View()) && View() == State(false, false, false, 0, map[], false)
    {
      running, stopped, armed, pending, callbacks, waiting := false, false, false, 0, map[], false;
    }

    /** A late Start does nothing once Stop was called. */
    method Begin(launched: bool)
      requires Sound(View())
      modifies this
      ensures Sound(View()) && View() == Next(old(View()), Start(launched))
    {
      if running || stopped {
        return;
      }
      if launched {
        running := true;
      }
    }

    /** An event: a timer that has not fired is replaced, and its count with it. */
    method OnEvent()
      requires Sound(View())
      modifies this
      ensures Sound(View()) && View() == Next(old(View()), Trigger)
    {
      if !running {
        return;
      }
      if armed {
        pending := pending - 1;
      }
      pending := pending + 1;
      armed := true;
    }

    /** The timer fires and its callback c starts. */
    method TimerFires(ghost c: nat)
      requires Sound(View()) && Enabled(View(), Fire(c))
      modifies this
      ensures Sound(View()) && View() == Next(old(View()), Fire(c))
    {
      armed := false;
      callbacks := callbacks[c := Fired];
    }

    /** The callback reads, under the lock, whether to re-apply. */
    method CallbackChecks(ghost c: nat) returns (reapplies: bool)
      requires Sound(View()) && Enabled(View(), Check(c))
      modifies this
      ensures Sound(View()) && View() == Next(old(View()), Check(c)) && reapplies == old(running)
    {
      StepSound(View(), Check(c));
      reapplies := running;
      callbacks := callbacks[c := if running then Reapplying else Skipping];
    }

    method CallbackEnds(ghost c: nat)
      requires Sound(View()) && Enabled(View(), Finish(c))
      modifies this
      ensures Sound(View()) && View() == Next(old(View()), Finish(c))
    {
      StepSound(View(), Finish(c));
      pending := pending - 1;
      callbacks := callbacks - {c};
    }

    /** Stop, under the lock; `waits` if it found the monitor running. */
    method StopUnderLock() returns (waits: bool)
      requires Sound(View())
      modifies this
      ensures Sound(View()) && View() == Next(old(View()), BeginStop) && waits == old(running)
    {
      stopped := true;
      if !running {
        return false;
      }
      if armed {
        pending := pending - 1;
        armed := false;
      }
      running := false;
      waiting := true;
      return true;
    }
  }

  // ---- runs ----

  predicate IsRun(s: State, run: seq<Event>)
    decreases |run|
  {
    run == [] || (Enabled(s, run[0]) && IsRun(Next(s, run[0]), run[1..]))
  }

  function After(s: State, run: seq<Event>): State
    requires IsRun(s, run)
    decreases |run|
  {
    if run == [] then s else After(Next(s, run[0]), run[1..])
  }

  /** An event that a running monitor gets is handled: the timer it arms fires, and the callback re-applies unless Stop comes first. */
  lemma EventIsHandled(s: State, c: nat)
    requires s.running && c !in s.callbacks
    ensures var run := [Trigger, Fire(c), Check(c)];
      && IsRun(s, run) && c in After(s, run).callbacks && After(s, run).callbacks[c] == Reapplying
      && After(s, run) == s.(armed := false, pending := if s.armed then s.pending else s.pending + 1, callbacks := s.callbacks[c := Reapplying])
    ensures var run := [Trigger, Fire(c), BeginStop, Check(c)];
      IsRun(s, run) && c in After(s, run).callbacks && After(s, run).callbacks[c] == Skipping
  {
    var armed := Next(s, Trigger);
    var fired := Next(armed, Fire(c));
    RunOne(fired, Check(c), []);
    RunOne(armed, Fire(c), [Check(c)]);
    RunOne(s, Trigger, [Fire(c), Check(c)]);
    assert s.callbacks[c := Fired][c := Reapplying] == s.callbacks[c := Reapplying];
    var stopped := Next(fired, BeginStop);
    RunOne(stopped, Check(c), []);
    RunOne(fired, BeginStop, [Check(c)]);
    RunOne(armed, Fire(c), [BeginStop, Check(c)]);
    RunOne(s, Trigger, [Fire(c), BeginStop, Check(c)]);
    assert [Trigger] + [Fire(c), Check(c)] == [Trigger, Fire(c), Check(c)] && [Fire(c)] + [Check(c)] == [Fire(c), Check(c)];
    assert [Trigger] + [Fire(c), BeginStop, Check(c)] == [Trigger, Fire(c), BeginStop, Check(c)];
    assert [Fire(c)] + [BeginStop, Check(c)] == [Fire(c), BeginStop, Check(c)] && [BeginStop] + [Check(c)] == [BeginStop, Check(c)];
    assert [Check(c)] + [] == [Check(c)];
  }

  lemma RunOne(s: State, e: Event, rest: seq<Event>)
    requires Enabled(s, e) && IsRun(Next(s, e), rest)
    ensures IsRun(s, [e] + rest) && After(s, [e] + rest) == After(Next(s, e), rest)
  {
    assert ([e] + rest)[0] == e && ([e] + rest)[1..] == rest;
  }

  /** A monitor starts if it can be launched and was not stopped. */
  lemma StartRuns(s: State, launched: bool)
    ensures Next(s, Start(launched)).running <==> s.running || (launched && !s.stopped)
    ensures !Next(s, BeginStop).running && Next(s, BeginStop).stopped
  {}

  /** In every run the counter is the armed timer plus the callbacks that run, and never negative. */
  lemma {:induction false} CounterExact(s: State, run: seq<Event>)
    requires Sound(s) && IsRun(s, run)
    ensures var z := After(s, run); Sound(z) && z.pending == (if z.armed then 1 else 0) + |z.callbacks| && z.pending >= 0
    decreases |run|
  {
    if run != [] {
      StepSound(s, run[0]);
      CounterExact(Next(s, run[0]), run[1..]);
    }
  }

  /** After a Stop that found the monitor running has returned, no callback runs and no run, late Starts included, starts one. */
  lemma {:induction false} StopIsFinal(s: State, run: seq<Event>)
    requires Sound(s) && Enabled(s, EndStop) && IsRun(Next(s, EndStop), run)
    ensures var z := After(Next(s, EndStop), run); z.callbacks == map[] && !z.armed && !z.running
    ensures forall e | e in run :: !e.Fire? && !e.Check?
  {
    assert |s.callbacks| == 0 ==> s.callbacks == map[];
    NothingStarts(Next(s, EndStop), run);
  }

  lemma {:induction false} NothingStarts(s: State, run: seq<Event>)
    requires Sound(s) && s.stopped && s.callbacks == map[] && IsRun(s, run)
    ensures After(s, run).callbacks == map[] && !After(s, run).armed && !After(s, run).running
    ensures forall e | e in run :: !e.Fire? && !e.Check?
    decreases |run|
  {
    if run != [] {
      StepSound(s, run[0]);
      NothingStarts(Next(s, run[0]), run[1..]);
      assert run == [run[0]] + run[1..];
    }
  }
}
