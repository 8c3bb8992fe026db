// Which profiles keep persist-remote-ip although openvpn gets several remotes: the
// stripping counts remotes by their name, while setenv opt can stand before one.
module RemotesInEffect {
  import opened Common
  import opened Numbers
  import opened Allowlist
  import opened Untrusted
  import opened ProfileReader
  import opened ProfileLines
  import opened Profile
  import opened Stripping

  /** openvpn dials this: a remote with a host, a setenv opt before it or not. */
  predicate Dials(v: Visit) { Sets(v, "remote") && Effective(v.d).1 != [] && Effective(v.d).1[0] != "" }

  /** The same, by the directive's own name. */
  predicate Named(v: Visit) { v.d.name == "remote" && !v.d.inlined && v.d.args != [] && v.d.args[0] != "" }

  predicate Persists(v: Visit) { Sets(v, "persist-remote-ip") }

  ghost predicate Any(w: seq<Visit>, p: Visit -> bool) { exists v :: v in w && p(v) }

  function Count(w: seq<Visit>, p: Visit -> bool): nat {
    if w == [] then 0 else (if p(w[0]) then 1 else 0) + Count(w[1..], p)
  }

  lemma {:induction false} CountConcat(a: seq<Visit>, b: seq<Visit>, p: Visit -> bool)
    ensures Count(a + b, p) == Count(a, p) + Count(b, p)
  {
    if a == [] {
      assert a + b == b;
    } else {
      CountConcat(a[1..], b, p);
      assert (a + b)[1..] == a[1..] + b;
    }
  }

  lemma {:induction false} NestedCount(ds: seq<Directive>, def: Defaults)
    ensures |RemotesOf(ds, def)| == Count(Nested(ds), Named)
  {
    hide TrimBrackets, TransportProto;
    if ds != [] {
      NestedCount(ds[1..], def);
      assert Nested(ds)[1..] == Nested(ds[1..]);
    }
  }

  /** The remotes that Connect collects are those with the name. */
  lemma {:induction false} RemotesCount(ds: seq<Directive>, global: Defaults)
    ensures |RemotesWith(ds, global)| == Count(Walk(ds), Named)
  {
    hide TrimBrackets, TransportProto;
    if ds != [] {
      var d := ds[0];
      RemotesCount(ds[1..], global);
      NestedCount(d.children, DefaultsOf(global, d.children));
      CountConcat([Visit(d, true)], Nested(d.children), Named);
      CountConcat([Visit(d, true)] + Nested(d.children), Walk(ds[1..]), Named);
      assert [Visit(d, true)][1..] == [];
    }
  }

  // ---- what is not stripped is kept ----

  lemma {:induction false} NestedKeeps(ds: seq<Directive>, several: bool, drop: set<nat>, v: Visit)
    requires v in Nested(ds) && !v.d.inlined && !Stripped(v.d, several)
    ensures v in Nested(Kept(ds, several, drop))
  {
    hide Stripped, Kept, KeptOne, Nested;
    NothingKept(several, drop);
    if ds != [] {
      KeptUnfolds(ds, several, drop);
      KeptOneIs(ds[0], several, drop);
      NestedFirst(ds[0], ds[1..]);
      NestedFirst(KeptOne(ds[0], several, drop), Kept(ds[1..], several, drop));
      if v in Nested(ds[1..]) { NestedKeeps(ds[1..], several, drop, v); }
    }
  }

  lemma {:induction false} WalkKeeps(ds: seq<Directive>, several: bool, drop: set<nat>, v: Visit)
    requires Flat(ds) && v in Walk(ds) && !v.d.inlined && !Stripped(v.d, several)
    requires forall d | d in ds && d.inlined :: !Stripped(d, several)
    ensures v in Walk(Kept(ds, several, drop))
  {
    hide Stripped, Kept, KeptOne, Nested, Walk;
    NothingKept(several, drop);
    if ds != [] {
      var d := ds[0];
      KeptUnfolds(ds, several, drop);
      KeptOneIs(d, several, drop);
      WalkFirst(d, ds[1..]);
      WalkFirst(KeptOne(d, several, drop), Kept(ds[1..], several, drop));
      assert d in ds && Flat(ds[1..]);
      if v in Walk(ds[1..]) {
        WalkKeeps(ds[1..], several, drop, v);
      } else if v in Nested(d.children) {
        NestedKeeps(d.children, several, drop, v);
      }
    }
  }

  // ---- exactly ----

  /** The directives that openvpn is given of an accepted profile. */
  function GivenTo(ds: seq<Directive>): seq<Directive> { Kept(ds, |Remotes(ds)| > 1, DropOf(ds)) }

  /** persist-remote-ip is kept if and only if at most one remote has the name. */
  lemma PersistIsKept(ds: seq<Directive>)
    requires Acceptable(ds) && Flat(ds)
    ensures Any(Walk(GivenTo(ds)), Persists) <==> Any(Walk(ds), Persists) && Count(Walk(ds), Named) <= 1
  {
    hide Remotes, Kept, Walk, DropOf, Acceptable;
    var several, drop := |Remotes(ds)| > 1, DropOf(ds);
    RemotesAreNamed(ds);
    if Any(Walk(GivenTo(ds)), Persists) {
      var v :| v in Walk(GivenTo(ds)) && Persists(v);
      KeptVisits(ds, several, drop, v);
      var u :| u in Walk(ds) && !Stripped(u.d, several) && v.top == u.top && v.d == u.d.(body := v.d.body, children := v.d.children);
      assert Persists(u);
    } else if v :| v in Walk(ds) && Persists(v) {
      if !several {
        InlineStays(ds);
        WalkKeeps(ds, several, drop, v);
      }
    }
  }

  lemma RemotesAreNamed(ds: seq<Directive>)
    ensures |Remotes(ds)| == Count(Walk(ds), Named)
  {
    RemotesCount(ds, DefaultsOf(Defaults("udp", "1194"), ds));
  }

  lemma InlineStays(ds: seq<Directive>)
    requires Acceptable(ds)
    ensures forall d | d in ds && d.inlined :: !Stripped(d, false)
  {
    forall d | d in ds && d.inlined ensures !Stripped(d, false) {
      TopIsVisited(ds, d);
      assert Permitted(Visit(d, true));
      if d.name in STRIP_ONLY { StripOnlyIsPlain(d); }
    }
  }

  lemma {:induction false} TopIsVisited(ds: seq<Directive>, d: Directive)
    requires d in ds
    ensures Visit(d, true) in Walk(ds)
  {
    if d != ds[0] { TopIsVisited(ds[1..], d); }
  }

  /**
   * So openvpn can be given several remotes to dial and persist-remote-ip all the
   * same: exactly if the profile has both and at most one of the remotes stands
   * without a setenv opt before it.
   */
  lemma PersistMeetsSeveral(ds: seq<Directive>)
    requires Acceptable(ds) && Flat(ds)
    ensures Count(Walk(ds), Dials) > 1 && Any(Walk(GivenTo(ds)), Persists) <==>
            Count(Walk(ds), Dials) > 1 >= Count(Walk(ds), Named) && Any(Walk(ds), Persists)
  {
    PersistIsKept(ds);
  }

  function Plain(name: string, args: seq<string>, line: nat): Visit { Visit(Directive(name, args, line, false, "", []), true) }

  const CLIENT := Plain("client", [], 1)
  const REMOTE := Plain("remote", ["a"], 2)
  const SETENV := Plain("setenv", ["opt", "remote", "b"], 3)
  const PERSIST := Plain("persist-remote-ip", [], 4)

  /** A profile of which this is so: client, remote a, setenv opt remote b, persist-remote-ip. */
  const BEHIND_SETENV := [CLIENT.d, REMOTE.d, SETENV.d, PERSIST.d]

  lemma SetenvWalk()
    ensures Walk(BEHIND_SETENV) == [CLIENT, REMOTE, SETENV, PERSIST]
  {
    var ds := BEHIND_SETENV;
    assert ds[1..][1..] == ds[2..] && ds[2..][1..] == ds[3..] && ds[3..][1..] == [];
    assert Walk(ds[3..]) == [PERSIST];
    assert Walk(ds[2..]) == [SETENV] + Walk(ds[3..]);
    assert Walk(ds[1..]) == [REMOTE] + Walk(ds[2..]);
  }

  lemma ClientRule()
    ensures RuleOf("client") == Some(Rule(Never, Anything))
  {
    assert ConnectionOption("client");
    hide ConnectionOption, PersistenceOption, CryptoOption, SessionOption, RoutingOption, LivenessOption, HarmlessOption;
  }

  lemma RemoteRule()
    ensures RuleOf("remote") == Some(Rule(Never, Anything))
  {
    assert ConnectionOption("remote");
    hide ConnectionOption, PersistenceOption, CryptoOption, SessionOption, RoutingOption, LivenessOption, HarmlessOption;
  }

  lemma PersistRule()
    ensures RuleOf("persist-remote-ip") == Some(Rule(Never, Anything))
  {
    assert PersistenceOption("persist-remote-ip");
    hide ConnectionOption, PersistenceOption, CryptoOption, SessionOption, RoutingOption, LivenessOption, HarmlessOption;
  }

  lemma PlainIsPermitted(v: Visit)
    requires RuleOf(v.d.name) == Some(Rule(Never, Anything)) && !v.d.inlined && v.top
    ensures Permitted(v)
  {
    hide RuleOf;
    assert ArgumentsOk(Anything, v.d);
    assert Checked(v.d);
  }

  lemma SetenvIsPermitted()
    ensures Permitted(SETENV)
  {
    hide RuleOf, Checked;
    RemoteRule();
    PlainIsPermitted(Plain("remote", ["b"], 3));
    SetenvOptAllowed(SETENV.d);
  }

  /** What each of its directives adds. */
  lemma SetenvAdds(f: Facts)
    ensures Add(f, CLIENT) == f.(hasClient := true, pull := true)
    ensures Add(f, REMOTE) == f.(hasRemote := true) && Add(f, SETENV) == f.(hasRemote := true)
    ensures Add(f, PERSIST) == f.(persist := f.persist + [4])
    ensures Persists(PERSIST) && !Dials(CLIENT) && Dials(REMOTE) && Dials(SETENV) && !Dials(PERSIST)
    ensures !Named(CLIENT) && Named(REMOTE) && !Named(SETENV) && !Named(PERSIST)
  {
    assert Effective(SETENV.d) == ("remote", ["b"]);
  }

  lemma SetenvFacts()
    ensures FactsOf([CLIENT, REMOTE, SETENV, PERSIST]) == Facts(true, true, true, false, [], [], [4])
  {
    hide Add;
    SetenvAdds(NO_FACTS);
    var w := [CLIENT, REMOTE, SETENV, PERSIST];
    assert w[..3] == [CLIENT, REMOTE, SETENV] && w[..3][..2] == [CLIENT, REMOTE] && w[..3][..2][..1] == [CLIENT] && [CLIENT][..0] == [];
    var f := Add(NO_FACTS, CLIENT);
    assert FactsOf([CLIENT]) == f;
    SetenvAdds(f);
    assert FactsOf([CLIENT, REMOTE]) == Add(f, REMOTE);
    SetenvAdds(Add(f, REMOTE));
    assert FactsOf([CLIENT, REMOTE, SETENV]) == Add(f, REMOTE);
  }

  lemma SetenvCounts()
    ensures var w := [CLIENT, REMOTE, SETENV, PERSIST]; Count(w, Dials) == 2 && Count(w, Named) == 1 && Any(w, Persists)
  {
    hide Dials, Named, Persists;
    SetenvAdds(NO_FACTS);
    var w := [CLIENT, REMOTE, SETENV, PERSIST];
    assert w[1..] == [REMOTE, SETENV, PERSIST] && w[1..][1..] == [SETENV, PERSIST] && w[1..][1..][1..] == [PERSIST] && [PERSIST][1..] == [];
    assert Count([PERSIST], Named) == 0 && Count([SETENV, PERSIST], Named) == 0;
    assert Count([PERSIST], Dials) == 0 && Count([SETENV, PERSIST], Dials) == 1;
    assert PERSIST in w;
  }

  lemma SetenvIsAccepted()
    ensures Acceptable(BEHIND_SETENV)
  {
    hide Permitted, FactsOf, Walk, RuleOf;
    SetenvWalk();
    SetenvFacts();
    SetenvIsPermitted();
    ClientRule();
    RemoteRule();
    PersistRule();
    PlainIsPermitted(CLIENT);
    PlainIsPermitted(REMOTE);
    PlainIsPermitted(PERSIST);
  }

  lemma SetenvRemoteIsNotCounted()
    ensures Acceptable(BEHIND_SETENV) && Flat(BEHIND_SETENV) && StripLines(BEHIND_SETENV) == []
    ensures Count(Walk(BEHIND_SETENV), Dials) == 2 && |Remotes(BEHIND_SETENV)| == 1
    ensures Any(Walk(GivenTo(BEHIND_SETENV)), Persists)
  {
    SetenvIsAccepted();
    hide Acceptable, FactsOf, Walk, Count, Any, Remotes, GivenTo, Persists, Dials, Named;
    SetenvWalk();
    SetenvFacts();
    SetenvCounts();
    RemotesAreNamed(BEHIND_SETENV);
    PersistIsKept(BEHIND_SETENV);
  }
}
