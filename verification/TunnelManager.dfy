// The WireGuard tunnel manager: slow phases run without its lock between a
// claim and a commit (internal/tunnel/manager.go, connect_phases.go).
module TunnelManager {
  import opened Common

  type Name = string
  type Engine = nat

  datatype State = Connecting | Connected | Disconnecting | Disconnected

  datatype Entry = Entry(state: State, engine: Option<Engine>, fullTunnel: bool)

  datatype TunnelError = AlreadyConnected | TransitionInProgress | FullTunnelConflict | NotConnected | StateCorrupt | PhasesFailed

  /** What the thread that claimed a name is doing with it. */
  datatype Ticket =
    | Building
    | Built(engine: Engine)
    | Failed
    | Tearing(engine: Engine)
    | TornDown(engine: Engine)

  type Tunnels = map<Name, Entry>
  type Tickets = map<Name, Ticket>

  /** An entry agrees with the claim on its name: nobody's while connected, one thread's in a transition. */
  predicate EntryOk(tunnels: Tunnels, tickets: Tickets, open: set<Engine>, n: Name) {
    if n !in tunnels then n !in tickets
    else
      var e := tunnels[n];
      match e.state
      case Connecting =>
        n in tickets && e.engine.None? &&
        (tickets[n].Building? || tickets[n].Failed? || (tickets[n].Built? && tickets[n].engine in open))
      case Connected => n !in tickets && e.engine.Some? && e.engine.value in open
      case Disconnecting =>
        n in tickets && e.engine.Some? &&
        (tickets[n] == Tearing(e.engine.value) || tickets[n] == TornDown(e.engine.value)) &&
        (tickets[n].Tearing? <==> e.engine.value in open)
      case Disconnected => false
  }

  /** The engine belongs to the name: in its entry, or just built for it. */
  predicate Owns(tunnels: Tunnels, tickets: Tickets, n: Name, e: Engine) {
    (n in tunnels && tunnels[n].engine == Some(e)) || (n in tickets && tickets[n] == Built(e))
  }

  /** home says for which name an engine was built. */
  ghost predicate Sound(tunnels: Tunnels, tickets: Tickets, open: set<Engine>, next: Engine, home: map<Engine, Name>) {
    && (forall n :: EntryOk(tunnels, tickets, open, n))
    && (forall n, e: Engine | Owns(tunnels, tickets, n, e) :: e in home && home[e] == n)
    && (forall e | e in open :: e in home && Owns(tunnels, tickets, home[e], e))
    && (forall e | e in home :: e < next)
  }

  predicate FullAt(tunnels: Tunnels, n: Name) {
    n in tunnels && tunnels[n].fullTunnel && (tunnels[n].state.Connected? || tunnels[n].state.Connecting?)
  }

  /** At most one tunnel that is connected or connects is a full tunnel. */
  ghost predicate OneFull(tunnels: Tunnels) {
    forall n, m | FullAt(tunnels, n) && FullAt(tunnels, m) :: n == m
  }

  ghost predicate ConnectOut(tunnels: Tunnels) { exists n :: n in tunnels && tunnels[n].state.Connecting? }

  predicate ConnectedFull(tunnels: Tunnels, n: Name) { n in tunnels && tunnels[n].state.Connected? && tunnels[n].fullTunnel }

  predicate ConnectingFull(tunnels: Tunnels, n: Name) { n in tunnels && tunnels[n].state.Connecting? && tunnels[n].fullTunnel }

  // ---- the steps on the state ----

  lemma ClaimSound(tunnels: Tunnels, tickets: Tickets, open: set<Engine>, next: Engine, home: map<Engine, Name>, n: Name, full: bool)
    requires Sound(tunnels, tickets, open, next, home) && n !in tunnels
    ensures Sound(tunnels[n := Entry(Connecting, None, full)], tickets[n := Building], open, next, home)
  {
    var t, k := tunnels[n := Entry(Connecting, None, full)], tickets[n := Building];
    assert EntryOk(tunnels, tickets, open, n);
    forall m ensures EntryOk(t, k, open, m) { assert EntryOk(tunnels, tickets, open, m); }
    forall e | e in open ensures e in home && Owns(t, k, home[e], e) { assert Owns(tunnels, tickets, home[e], e); }
    forall m, e: Engine | Owns(t, k, m, e) ensures e in home && home[e] == m { assert Owns(tunnels, tickets, m, e); }
  }

  lemma BuiltSound(tunnels: Tunnels, tickets: Tickets, open: set<Engine>, next: Engine, home: map<Engine, Name>, n: Name)
    requires Sound(tunnels, tickets, open, next, home) && n in tickets && tickets[n] == Building
    ensures Sound(tunnels, tickets[n := Built(next)], open + {next}, next + 1, home[next := n])
  {
    var k, o, h := tickets[n := Built(next)], open + {next}, home[next := n];
    assert EntryOk(tunnels, tickets, open, n);
    forall m ensures EntryOk(tunnels, k, o, m) {
      assert EntryOk(tunnels, tickets, open, m);
      if m in tunnels && tunnels[m].engine.Some? {
        assert Owns(tunnels, tickets, m, tunnels[m].engine.value);
      }
    }
    forall e | e in o ensures e in h && Owns(tunnels, k, h[e], e) { if e != next { assert Owns(tunnels, tickets, home[e], e); } }
    forall m, e: Engine | Owns(tunnels, k, m, e) ensures e in h && h[e] == m {
      if !(m == n && e == next) { assert Owns(tunnels, tickets, m, e); }
    }
  }

  lemma FailedSound(tunnels: Tunnels, tickets: Tickets, open: set<Engine>, next: Engine, home: map<Engine, Name>, n: Name)
    requires Sound(tunnels, tickets, open, next, home) && n in tickets && tickets[n] == Building
    ensures Sound(tunnels, tickets[n := Failed], open, next, home)
  {
    var k := tickets[n := Failed];
    assert EntryOk(tunnels, tickets, open, n);
    forall m ensures EntryOk(tunnels, k, open, m) { assert EntryOk(tunnels, tickets, open, m); }
    forall e | e in open ensures e in home && Owns(tunnels, k, home[e], e) { assert Owns(tunnels, tickets, home[e], e); }
    forall m, e: Engine | Owns(tunnels, k, m, e) ensures e in home && home[e] == m { assert Owns(tunnels, tickets, m, e); }
  }

  /** An entry leaves with its claim, when its engine is closed or never was. */
  lemma RemoveSound(tunnels: Tunnels, tickets: Tickets, open: set<Engine>, next: Engine, home: map<Engine, Name>, n: Name)
    requires Sound(tunnels, tickets, open, next, home) && n in tickets && (tickets[n].Failed? || tickets[n].TornDown?)
    ensures Sound(tunnels - {n}, tickets - {n}, open, next, home)
  {
    var t, k := tunnels - {n}, tickets - {n};
    assert EntryOk(tunnels, tickets, open, n);
    forall m ensures EntryOk(t, k, open, m) { assert EntryOk(tunnels, tickets, open, m); }
    forall e | e in open ensures e in home && Owns(t, k, home[e], e) { assert Owns(tunnels, tickets, home[e], e); }
    forall m, e: Engine | Owns(t, k, m, e) ensures e in home && home[e] == m { assert Owns(tunnels, tickets, m, e); }
  }

  lemma ConnectedSound(tunnels: Tunnels, tickets: Tickets, open: set<Engine>, next: Engine, home: map<Engine, Name>, n: Name)
    requires Sound(tunnels, tickets, open, next, home) && n in tickets && tickets[n].Built? && n in tunnels
    ensures Sound(tunnels[n := tunnels[n].(state := Connected, engine := Some(tickets[n].engine))], tickets - {n}, open, next, home)
  {
    var t, k := tunnels[n := tunnels[n].(state := Connected, engine := Some(tickets[n].engine))], tickets - {n};
    assert EntryOk(tunnels, tickets, open, n);
    forall m ensures EntryOk(t, k, open, m) { assert EntryOk(tunnels, tickets, open, m); }
    forall e | e in open ensures e in home && Owns(t, k, home[e], e) { assert Owns(tunnels, tickets, home[e], e); }
    forall m, e: Engine | Owns(t, k, m, e) ensures e in home && home[e] == m { assert Owns(tunnels, tickets, m, e); }
  }

  lemma TearingSound(tunnels: Tunnels, tickets: Tickets, open: set<Engine>, next: Engine, home: map<Engine, Name>, n: Name)
    requires Sound(tunnels, tickets, open, next, home) && n in tunnels && tunnels[n].state == Connected
    ensures tunnels[n].engine.Some? && n !in tickets
    ensures Sound(tunnels[n := tunnels[n].(state := Disconnecting)], tickets[n := Tearing(tunnels[n].engine.value)], open, next, home)
  {
    assert EntryOk(tunnels, tickets, open, n);
    var t, k := tunnels[n := tunnels[n].(state := Disconnecting)], tickets[n := Tearing(tunnels[n].engine.value)];
    forall m ensures EntryOk(t, k, open, m) { assert EntryOk(tunnels, tickets, open, m); }
    forall e | e in open ensures e in home && Owns(t, k, home[e], e) { assert Owns(tunnels, tickets, home[e], e); }
    forall m, e: Engine | Owns(t, k, m, e) ensures e in home && home[e] == m { assert Owns(tunnels, tickets, m, e); }
  }

  lemma ClosedSound(tunnels: Tunnels, tickets: Tickets, open: set<Engine>, next: Engine, home: map<Engine, Name>, n: Name)
    requires Sound(tunnels, tickets, open, next, home) && n in tickets && tickets[n].Tearing?
    ensures Sound(tunnels, tickets[n := TornDown(tickets[n].engine)], open - {tickets[n].engine}, next, home)
  {
    assert EntryOk(tunnels, tickets, open, n);
    var e0 := tickets[n].engine;
    var k, o := tickets[n := TornDown(e0)], open - {e0};
    assert Owns(tunnels, tickets, n, e0);
    forall m ensures EntryOk(tunnels, k, o, m) {
      assert EntryOk(tunnels, tickets, open, m);
      if m in tunnels && tunnels[m].engine.Some? { assert Owns(tunnels, tickets, m, tunnels[m].engine.value); }
      if m in tickets && tickets[m].Built? { assert Owns(tunnels, tickets, m, tickets[m].engine); }
    }
    forall e | e in o ensures e in home && Owns(tunnels, k, home[e], e) { assert Owns(tunnels, tickets, home[e], e); }
    forall m, e: Engine | Owns(tunnels, k, m, e) ensures e in home && home[e] == m { assert Owns(tunnels, tickets, m, e); }
  }

  /** A claim keeps at most one full tunnel exactly if it is not full or no full tunnel is connected or connects. */
  lemma ClaimKeepsOneFull(tunnels: Tunnels, n: Name, full: bool)
    requires OneFull(tunnels) && n !in tunnels
    ensures OneFull(tunnels[n := Entry(Connecting, None, full)]) <==> (full ==> forall m :: !FullAt(tunnels, m))
  {
    var t := tunnels[n := Entry(Connecting, None, full)];
    assert forall m | m != n :: FullAt(t, m) <==> FullAt(tunnels, m);
    if full && exists m :: FullAt(tunnels, m) {
      var m :| FullAt(tunnels, m);
      assert FullAt(t, m) && FullAt(t, n);
    }
  }

  class Manager {
    var tunnels: Tunnels
    var open: set<Engine>                // engines not closed
    var nextEngine: Engine
    ghost var tickets: Tickets           // the claims that are out, one a name
    ghost var home: map<Engine, Name>

    ghost predicate Valid() reads this { Sound(tunnels, tickets, open, nextEngine, home) }

    constructor ()
      ensures Valid() && OneFull(tunnels) && tunnels == map[] && tickets == map[] && open == {}
    {
      tunnels, open, nextEngine, tickets, home := map[], {}, 0, map[], map[];
    }

    /** Another connected tunnel already routes everything. */
    method Conflicts(name: Name) returns (b: bool)
      ensures b <==> exists n :: n != name && ConnectedFull(tunnels, n)
    {
      var todo := tunnels.Keys;
      b := false;
      while todo != {}
        invariant todo <= tunnels.Keys
        invariant b <==> exists n :: n in tunnels && n !in todo && n != name && ConnectedFull(tunnels, n)
      {
        var n :| n in todo;
        todo := todo - {n};
        b := b || (n != name && tunnels[n].state == Connected && tunnels[n].fullTunnel);
      }
    }

    /** Phase 1 of Connect: a claim is granted only on a name nobody has claimed. */
    method ClaimConnect(name: Name, fullTunnel: bool) returns (r: Option<TunnelError>)
      requires Valid()
      modifies this`tunnels, this`tickets
      ensures Valid()
      ensures r.None? ==> name !in old(tunnels) && name !in old(tickets)
      ensures r.None? ==> tunnels == old(tunnels)[name := Entry(Connecting, None, fullTunnel)] && tickets == old(tickets)[name := Building]
      ensures r.Some? ==> tunnels == old(tunnels) && tickets == old(tickets)
      ensures r == Some(AlreadyConnected) <==> name in old(tunnels) && name !in old(tickets)
      ensures r == Some(TransitionInProgress) <==> name in old(tickets)
      ensures r == Some(FullTunnelConflict) <==> name !in old(tunnels) && fullTunnel && exists n :: n != name && ConnectedFull(old(tunnels), n)
      ensures r.Some? ==> r.value in {AlreadyConnected, TransitionInProgress, FullTunnelConflict}
      ensures OneFull(old(tunnels)) ==>
        (OneFull(tunnels) <==> r.Some? || !fullTunnel || forall m :: !ConnectingFull(old(tunnels), m))
      ensures OneFull(old(tunnels)) && !ConnectOut(old(tunnels)) ==> OneFull(tunnels)
    {
      assert EntryOk(tunnels, tickets, open, name);
      if name in tunnels {
        if tunnels[name].state == Connected {
          return Some(AlreadyConnected);
        }
        return Some(TransitionInProgress);
      }
      var conflict := false;
      if fullTunnel {
        conflict := Conflicts(name);
      }
      if conflict {
        return Some(FullTunnelConflict);
      }
      ClaimSound(tunnels, tickets, open, nextEngine, home, name, fullTunnel);
      if OneFull(tunnels) {
        ClaimKeepsOneFull(tunnels, name, fullTunnel);
      }
      assert forall m :: FullAt(tunnels, m) <==> ConnectedFull(tunnels, m) || ConnectingFull(tunnels, m);
      tunnels := tunnels[name := Entry(Connecting, None, fullTunnel)];
      tickets := tickets[name := Building];
      return None;
    }

    /** Phase 2 of Connect, without the lock: an engine, or nothing left of a failed attempt. */
    method ConnectPhases(name: Name, ok: bool) returns (engine: Option<Engine>)
      requires Valid() && name in tickets && tickets[name] == Building
      modifies this`open, this`nextEngine, this`tickets, this`home
      ensures Valid() && engine.Some? == ok
      ensures tickets == old(tickets)[name := if engine.Some? then Built(engine.value) else Failed]
      ensures if engine.Some? then engine.value !in old(open) && open == old(open) + {engine.value} else open == old(open)
    {
      if !ok {
        FailedSound(tunnels, tickets, open, nextEngine, home, name);
        tickets := tickets[name := Failed];
        return None;
      }
      BuiltSound(tunnels, tickets, open, nextEngine, home, name);
      var e := nextEngine;
      nextEngine, open := nextEngine + 1, open + {e};
      tickets, home := tickets[name := Built(e)], home[e := name];
      return Some(e);
    }

    /**
     * Phase 3 of Connect. The entry under the name is the one the thread claimed,
     * so the check that the state changed during setup never fires.
     */
    method CommitConnect(name: Name, engine: Option<Engine>) returns (r: Option<TunnelError>)
      requires Valid() && name in tickets && tickets[name] == (if engine.Some? then Built(engine.value) else Failed)
      modifies this`tunnels, this`tickets
      ensures Valid() && tickets == old(tickets) - {name}
      ensures name in old(tunnels) && old(tunnels)[name].state == Connecting
      ensures engine.Some? ==> r == None && tunnels == old(tunnels)[name := old(tunnels)[name].(state := Connected, engine := engine)]
      ensures engine.None? ==> r == Some(PhasesFailed) && tunnels == old(tunnels) - {name}
      ensures OneFull(old(tunnels)) ==> OneFull(tunnels)
    {
      assert EntryOk(tunnels, tickets, open, name);
      if engine.None? {
        RemoveSound(tunnels, tickets, open, nextEngine, home, name);
        tunnels, tickets := tunnels - {name}, tickets - {name};
        assert forall n :: FullAt(tunnels, n) ==> FullAt(old(tunnels), n);
        return Some(PhasesFailed);
      }
      if tunnels[name].state != Connecting {
        assert false;
      }
      ConnectedSound(tunnels, tickets, open, nextEngine, home, name);
      tunnels := tunnels[name := tunnels[name].(state := Connected, engine := engine)];
      tickets := tickets - {name};
      assert forall n :: FullAt(tunnels, n) ==> FullAt(old(tunnels), n);
      return None;
    }

    /** Phase 1 of DisconnectTunnel, once no transition is under way; a connected entry always has its engine. */
    method ClaimDisconnect(name: Name) returns (r: Result<Engine, TunnelError>)
      requires Valid()
      modifies this`tunnels, this`tickets
      ensures Valid()
      ensures r.Ok? <==> name in old(tunnels) && name !in old(tickets)
      ensures r.Ok? ==> old(tunnels)[name].state == Connected && old(tunnels)[name].engine == Some(r.value)
      ensures r.Ok? ==> tunnels == old(tunnels)[name := old(tunnels)[name].(state := Disconnecting)] && tickets == old(tickets)[name := Tearing(r.value)]
      ensures r == Err(NotConnected) <==> name !in old(tunnels)
      ensures r == Err(TransitionInProgress) <==> name in old(tickets)
      ensures r.Err? ==> r.error in {NotConnected, TransitionInProgress} && tunnels == old(tunnels) && tickets == old(tickets)
      ensures OneFull(old(tunnels)) ==> OneFull(tunnels)
    {
      assert EntryOk(tunnels, tickets, open, name);
      if name !in tunnels {
        return Err(NotConnected);
      }
      if tunnels[name].state == Connecting || tunnels[name].state == Disconnecting {
        return Err(TransitionInProgress);
      }
      if tunnels[name].state != Connected || tunnels[name].engine.None? {
        assert false;
      }
      r := Ok(tunnels[name].engine.value);
      TearingSound(tunnels, tickets, open, nextEngine, home, name);
      tunnels := tunnels[name := tunnels[name].(state := Disconnecting)];
      tickets := tickets[name := Tearing(r.value)];
      assert forall n :: FullAt(tunnels, n) ==> FullAt(old(tunnels), n);
    }

    /** The claim of an engine's death watcher; one of an earlier engine is turned away. */
    method ClaimDeath(name: Name, engine: Engine) returns (claimed: bool)
      requires Valid()
      modifies this`tunnels, this`tickets
      ensures Valid()
      ensures claimed <==> name in old(tunnels) && old(tunnels)[name].state == Connected && old(tunnels)[name].engine == Some(engine)
      ensures claimed ==> name !in old(tickets)
      ensures claimed ==> tunnels == old(tunnels)[name := old(tunnels)[name].(state := Disconnecting)] && tickets == old(tickets)[name := Tearing(engine)]
      ensures !claimed ==> tunnels == old(tunnels) && tickets == old(tickets)
      ensures OneFull(old(tunnels)) ==> OneFull(tunnels)
    {
      assert EntryOk(tunnels, tickets, open, name);
      if name !in tunnels || tunnels[name].engine != Some(engine) || tunnels[name].state != Connected {
        return false;
      }
      TearingSound(tunnels, tickets, open, nextEngine, home, name);
      tunnels := tunnels[name := tunnels[name].(state := Disconnecting)];
      tickets := tickets[name := Tearing(engine)];
      assert forall n :: FullAt(tunnels, n) ==> FullAt(old(tunnels), n);
      return true;
    }

    /** Phase 2 of a teardown, without the lock: the claimed engine is closed. */
    method DisconnectPhases(name: Name, engine: Engine)
      requires Valid() && name in tickets && tickets[name] == Tearing(engine)
      modifies this`open, this`tickets
      ensures Valid() && open == old(open) - {engine} && tickets == old(tickets)[name := TornDown(engine)]
    {
      ClosedSound(tunnels, tickets, open, nextEngine, home, name);
      open, tickets := open - {engine}, tickets[name := TornDown(engine)];
    }

    /** Phase 3 of a teardown: the entry removed is the one claimed, and its engine is closed. */
    method CommitTeardown(name: Name, engine: Engine)
      requires Valid() && name in tickets && tickets[name] == TornDown(engine)
      modifies this`tunnels, this`tickets
      ensures Valid() && tunnels == old(tunnels) - {name} && tickets == old(tickets) - {name}
      ensures name in old(tunnels) && old(tunnels)[name].state == Disconnecting && old(tunnels)[name].engine == Some(engine)
      ensures engine !in open
      ensures OneFull(old(tunnels)) ==> OneFull(tunnels)
    {
      assert EntryOk(tunnels, tickets, open, name);
      RemoveSound(tunnels, tickets, open, nextEngine, home, name);
      tunnels, tickets := tunnels - {name}, tickets - {name};
      assert forall n :: FullAt(tunnels, n) ==> FullAt(old(tunnels), n);
    }
  }

  /** No engine leaks: once no claim is out, the open engines are those of the connected tunnels. */
  lemma OpenEnginesAreConnected(tunnels: Tunnels, tickets: Tickets, open: set<Engine>, next: Engine, home: map<Engine, Name>, e: Engine)
    requires Sound(tunnels, tickets, open, next, home) && tickets == map[]
    ensures e in open <==> exists n :: n in tunnels && tunnels[n] == Entry(Connected, Some(e), tunnels[n].fullTunnel)
  {
    if e in open {
      assert Owns(tunnels, tickets, home[e], e);
      assert EntryOk(tunnels, tickets, open, home[e]);
      assert tunnels[home[e]] == Entry(Connected, Some(e), tunnels[home[e]].fullTunnel);
    }
    forall n | n in tunnels && tunnels[n] == Entry(Connected, Some(e), tunnels[n].fullTunnel) ensures e in open {
      assert EntryOk(tunnels, tickets, open, n);
    }
  }

  /** Without that, two connects at once pass the check for other full tunnels and both commit. */
  lemma ConcurrentConnectsBothPass(a: Name, b: Name)
    requires a != b
    ensures var first := map[a := Entry(Connecting, None, true)];
      && OneFull(first) && ConnectOut(first)
      && !(exists n :: n != b && ConnectedFull(first, n))
      && !OneFull(first[b := Entry(Connecting, None, true)])
  {
    var first := map[a := Entry(Connecting, None, true)];
    var both := first[b := Entry(Connecting, None, true)];
    assert a in first;
    assert FullAt(both, a) && FullAt(both, b);
  }
}
