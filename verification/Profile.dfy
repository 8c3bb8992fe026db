// What Connect takes from a profile, and the profile openvpn is given
// (internal/ovpn/config.go).
module Profile {
  import opened Common
  import opened Allowlist
  import opened ProfileReader
  import opened ProfileLines
  import opened Untrusted

  const MAX_SIZE := 1048576

  // ---- remotes ----

  datatype Remote = Remote(host: string, port: string, proto: string)

  datatype Defaults = Defaults(proto: string, port: string)

  predicate SameLetter(c: char, lower: char)
    requires 'a' <= lower <= 'z'
  {
    c == lower || c as int + 32 == lower as int
  }

  function TransportProto(p: string): string {
    if |p| >= 3 && SameLetter(p[0], 't') && SameLetter(p[1], 'c') && SameLetter(p[2], 'p') then "tcp" else "udp"
  }

  predicate IsBracket(c: char) { c == '[' || c == ']' }

  function TrimBrackets(s: string): string
    decreases |s|
  {
    if s != "" && IsBracket(s[0]) then TrimBrackets(s[1..])
    else if s != "" && IsBracket(s[|s|-1]) then TrimBrackets(s[..|s|-1])
    else s
  }

  function Apply(def: Defaults, d: Directive): Defaults {
    if d.inlined || d.args == [] then def
    else if d.name == "proto" then def.(proto := d.args[0])
    else if d.name == "port" || d.name == "rport" then def.(port := d.args[0])
    else def
  }

  /** The defaults after all of ds, whatever their order with the remotes. */
  function DefaultsOf(def: Defaults, ds: seq<Directive>): Defaults
    decreases |ds|
  {
    if ds == [] then def else DefaultsOf(Apply(def, ds[0]), ds[1..])
  }

  function RemoteOf(d: Directive, def: Defaults): seq<Remote> {
    if d.name != "remote" || d.inlined || d.args == [] || d.args[0] == "" then []
    else [Remote(TrimBrackets(d.args[0]),
                 if |d.args| >= 2 && d.args[1] != "" then d.args[1] else def.port,
                 TransportProto(if |d.args| >= 3 && d.args[2] != "" then d.args[2] else def.proto))]
  }

  function RemotesOf(ds: seq<Directive>, def: Defaults): seq<Remote> {
    if ds == [] then [] else RemoteOf(ds[0], def) + RemotesOf(ds[1..], def)
  }

  /** Top-level remotes with the global defaults, each block's with its own. */
  function RemotesWith(ds: seq<Directive>, global: Defaults): seq<Remote> {
    if ds == [] then []
    else RemoteOf(ds[0], global) + RemotesOf(ds[0].children, DefaultsOf(global, ds[0].children)) + RemotesWith(ds[1..], global)
  }

  function Remotes(ds: seq<Directive>): seq<Remote> { RemotesWith(ds, DefaultsOf(Defaults("udp", "1194"), ds)) }

  method ApplyAll(def: Defaults, ds: seq<Directive>) returns (r: Defaults)
    ensures r == DefaultsOf(def, ds)
  {
    r := def;
    for i := 0 to |ds|
      invariant DefaultsOf(r, ds[i..]) == DefaultsOf(def, ds)
    {
      r := Apply(r, ds[i]);
    }
  }

  lemma Regroup(out: seq<Remote>, a: seq<Remote>, b: seq<Remote>, rest: seq<Remote>)
    ensures out + (a + b + rest) == out + a + b + rest
  {}

  method CollectRemotes(ds: seq<Directive>) returns (out: seq<Remote>)
    ensures out == Remotes(ds)
  {
    var global := ApplyAll(Defaults("udp", "1194"), ds);
    out := [];
    for i := 0 to |ds|
      invariant out + RemotesWith(ds[i..], global) == Remotes(ds)
    {
      var d := ds[i];
      Regroup(out, RemoteOf(d, global), RemotesOf(d.children, DefaultsOf(global, d.children)), RemotesWith(ds[i+1..], global));
      out := out + RemoteOf(d, global);
      var nested := CollectNested(d.children, global);
      out := out + nested;
    }
    assert out + [] == out;
  }

  method CollectNested(children: seq<Directive>, global: Defaults) returns (out: seq<Remote>)
    ensures out == RemotesOf(children, DefaultsOf(global, children))
  {
    var own := ApplyAll(global, children);
    out := [];
    for j := 0 to |children|
      invariant out + RemotesOf(children[j..], own) == RemotesOf(children, own)
    {
      assert out + (RemoteOf(children[j], own) + RemotesOf(children[j+1..], own)) ==
             out + RemoteOf(children[j], own) + RemotesOf(children[j+1..], own);
      out := out + RemoteOf(children[j], own);
    }
    assert out + [] == out;
  }

  // ---- inspection ----

  /** A directive in the order openvpn applies them, and where it stands. */
  datatype Visit = Visit(d: Directive, top: bool)

  function Nested(children: seq<Directive>): (r: seq<Visit>)
    ensures |r| == |children| && forall i | 0 <= i < |r| :: r[i] == Visit(children[i], false)
  {
    if children == [] then [] else [Visit(children[0], false)] + Nested(children[1..])
  }

  function Walk(ds: seq<Directive>): seq<Visit> {
    if ds == [] then [] else [Visit(ds[0], true)] + Nested(ds[0].children) + Walk(ds[1..])
  }

  /** The visit is allowed at all. */
  predicate Permitted(v: Visit) { Checked(v.d) && (v.d.name in STRIP_ONLY ==> v.top) }

  /** The visit counts as an option of the profile. */
  predicate Counts(v: Visit) { v.d.name !in STRIP_ONLY && !v.d.inlined }

  predicate Sets(v: Visit, name: string) { Counts(v) && Effective(v.d).0 == name }

  predicate ForcesBind(v: Visit) { Sets(v, "bind") || (Sets(v, "local") && |Effective(v.d).1| < 2) }

  predicate LowPort(v: Visit) {
    Sets(v, "port") && |Effective(v.d).1| == 1 && !UnprivilegedPort(Effective(v.d).1[0])
  }

  /** What the profile-wide checks look at. */
  datatype Facts = Facts(hasRemote: bool, hasClient: bool, pull: bool, bind: bool, lowPort: seq<nat>, strip: seq<nat>, persist: seq<nat>)

  const NO_FACTS := Facts(false, false, false, false, [], [], [])

  function Add(f: Facts, v: Visit): Facts {
    if v.d.name in STRIP_ONLY then f.(strip := f.strip + [v.d.line])
    else
      f.(hasRemote := f.hasRemote || Sets(v, "remote"),
         hasClient := f.hasClient || Sets(v, "client") || Sets(v, "tls-client"),
         pull := f.pull || Sets(v, "client") || Sets(v, "pull"),
         bind := f.bind || ForcesBind(v),
         lowPort := if LowPort(v) then f.lowPort + [v.d.line] else f.lowPort,
         persist := if Sets(v, "persist-remote-ip") then f.persist + [v.d.line] else f.persist)
  }

  function FactsOf(w: seq<Visit>): Facts {
    if w == [] then NO_FACTS else Add(FactsOf(w[..|w|-1]), w[|w|-1])
  }

  lemma FactsSnoc(w: seq<Visit>, v: Visit)
    ensures FactsOf(w + [v]) == Add(FactsOf(w), v)
  {
    hide Add;
    assert (w + [v])[..|w|] == w;
  }

  datatype InspectError =
    | TooBig
    | Unreadable(cause: ReadError)
    | NotAllowed(line: nat)
    | NoRemote
    | NoClient
    | PrivilegedPort(line: nat)

  datatype Inspected = Inspected(remotes: seq<Remote>, stripLines: seq<nat>)

  method VisitOne(f: Facts, v: Visit) returns (r: Result<Facts, InspectError>)
    ensures r == if Permitted(v) then Ok(Add(f, v)) else Err(NotAllowed(v.d.line))
  {
    hide Checked, UnprivilegedPort, RuleOf;
    var d := v.d;
    if !Checked(d) {
      return Err(NotAllowed(d.line));
    }
    var g := f;
    if d.name in STRIP_ONLY {
      if !v.top {
        return Err(NotAllowed(d.line));
      }
      return Ok(g.(strip := g.strip + [d.line]));
    }
    if d.inlined {
      return Ok(g);
    }
    var (name, args) := Effective(d);
    if name == "remote" {
      g := g.(hasRemote := true);
    } else if name == "client" {
      g := g.(hasClient := true, pull := true);
    } else if name == "tls-client" {
      g := g.(hasClient := true);
    } else if name == "pull" {
      g := g.(pull := true);
    } else if name == "bind" {
      g := g.(bind := true);
    } else if name == "local" {
      g := if |args| < 2 then g.(bind := true) else g;
    } else if name == "port" {
      g := if |args| == 1 && !UnprivilegedPort(args[0]) then g.(lowPort := g.lowPort + [d.line]) else g;
    } else if name == "persist-remote-ip" {
      g := g.(persist := g.persist + [d.line]);
    }
    return Ok(g);
  }

  method VisitNested(f: Facts, children: seq<Directive>, ghost done: seq<Visit>) returns (r: Result<Facts, InspectError>)
    requires f == FactsOf(done)
    ensures r.Ok? <==> forall v | v in Nested(children) :: Permitted(v)
    ensures r.Ok? ==> r.value == FactsOf(done + Nested(children))
    ensures r.Err? ==> exists v | v in Nested(children) :: !Permitted(v) && r.error == NotAllowed(v.d.line)
  {
    hide Permitted, Add, FactsOf, Nested;
    var g := f;
    NestedStarts(done, children);
    for j := 0 to |children|
      invariant g == FactsOf(done + Nested(children)[..j])
      invariant forall v | v in Nested(children)[..j] :: Permitted(v)
    {
      NestedGoesOn(done, children, j);
      r := VisitOne(g, Visit(children[j], false));
      if r.Err? {
        return;
      }
      FactsSnoc(done + Nested(children)[..j], Visit(children[j], false));
      g := r.value;
    }
    assert Nested(children)[..|children|] == Nested(children);
    return Ok(g);
  }

  lemma NestedStarts(done: seq<Visit>, children: seq<Directive>)
    ensures done + Nested(children)[..0] == done
  {}

  lemma NestedGoesOn(done: seq<Visit>, children: seq<Directive>, j: nat)
    requires j < |children|
    ensures var v, w := Visit(children[j], false), Nested(children);
      v in w && w[..j+1] == w[..j] + [v] && done + w[..j+1] == done + w[..j] + [v]
  {
    var w := Nested(children);
    hide Nested;
    assert w[j] == Visit(children[j], false);
  }

  method VisitAll(ds: seq<Directive>) returns (r: Result<Facts, InspectError>)
    ensures r.Ok? <==> forall v | v in Walk(ds) :: Permitted(v)
    ensures r.Ok? ==> r.value == FactsOf(Walk(ds))
    ensures r.Err? ==> exists v | v in Walk(ds) :: !Permitted(v) && r.error == NotAllowed(v.d.line)
  {
    var f := NO_FACTS;
    ghost var done: seq<Visit> := [];
    for i := 0 to |ds|
      invariant done + Walk(ds[i..]) == Walk(ds)
      invariant f == FactsOf(done) && forall v | v in done :: Permitted(v)
    {
      var v := Visit(ds[i], true);
      ghost var rest := Walk(ds[i+1..]);
      WalkSplit(done, v, Nested(v.d.children), rest, Walk(ds));
      r := VisitOne(f, v);
      if r.Err? {
        return;
      }
      done := done + [v];
      r := VisitNested(r.value, v.d.children, done);
      if r.Err? {
        return;
      }
      f, done := r.value, done + Nested(v.d.children);
    }
    assert done + [] == done;
    return Ok(f);
  }

  lemma WalkSplit(done: seq<Visit>, v: Visit, nested: seq<Visit>, rest: seq<Visit>, whole: seq<Visit>)
    requires done + ([v] + nested + rest) == whole
    ensures done + [v] + nested + rest == whole && v in whole && (forall u | u in nested :: u in whole)
    ensures (done + [v])[..|done|] == done
  {}

  // ---- what acceptance means, directive by directive ----

  /** A directive of the profile, or of one of its <connection> blocks. */
  ghost predicate InProfile(ds: seq<Directive>, d: Directive) { d in ds || InBlock(ds, d) }

  ghost predicate InBlock(ds: seq<Directive>, d: Directive) { exists p | p in ds :: d in p.children }

  /** The arguments with which d applies the option, itself or behind a setenv opt. */
  function Applied(d: Directive, name: string): Option<seq<string>> {
    if d.inlined then None
    else if d.name == name then Some(d.args)
    else if d.name == "setenv" && |d.args| >= 2 && d.args[0] == "opt" && d.args[1] == name then Some(d.args[2..])
    else None
  }

  ghost predicate Applies(ds: seq<Directive>, name: string) { exists d | InProfile(ds, d) :: Applied(d, name).Some? }

  /** local without a port. */
  predicate BindsHere(d: Directive) { Applied(d, "local").Some? && |Applied(d, "local").value| < 2 }

  /** Something makes openvpn bind the port option's port. */
  ghost predicate Binds(ds: seq<Directive>) {
    Applies(ds, "bind") || exists d | InProfile(ds, d) :: BindsHere(d)
  }

  /** The port option names a port that only root may bind. */
  predicate RootsPort(d: Directive) {
    var args := Applied(d, "port");
    args.Some? && |args.value| == 1 && !AnyonesPort(args.value[0])
  }

  lemma {:induction false} WalkIs(ds: seq<Directive>, v: Visit)
    ensures v in Walk(ds) <==> if v.top then v.d in ds else InBlock(ds, v.d)
  {
    if ds != [] {
      var d := ds[0];
      assert ds == [d] + ds[1..];
      WalkIs(ds[1..], v);
      assert v in Nested(d.children) <==> !v.top && v.d in d.children;
      assert InBlock(ds, v.d) <==> v.d in d.children || InBlock(ds[1..], v.d);
    }
  }

  /** What the facts say of the visits: which options are applied, and on which lines. */
  ghost predicate FlagsMean(w: seq<Visit>, f: Facts) {
    && (f.hasRemote <==> exists v | v in w :: Applied(v.d, "remote").Some?)
    && (f.hasClient <==> exists v | v in w :: Applied(v.d, "client").Some? || Applied(v.d, "tls-client").Some?)
    && (f.pull <==> exists v | v in w :: Applied(v.d, "client").Some? || Applied(v.d, "pull").Some?)
    && (f.bind <==> exists v | v in w :: Applied(v.d, "bind").Some? || BindsHere(v.d))
  }

  ghost predicate LinesMean(w: seq<Visit>, f: Facts) {
    && (forall l :: l in f.lowPort <==> exists v | v in w :: RootsPort(v.d) && v.d.line == l)
    && (forall l :: l in f.strip <==> exists v | v in w :: v.d.name in {"user", "group"} && v.d.line == l)
    && (forall l :: l in f.persist <==> exists v | v in w :: Applied(v.d, "persist-remote-ip").Some? && v.d.line == l)
  }

  lemma SetsMeans(v: Visit, name: string)
    requires name !in {"user", "group", "setenv"}
    ensures Sets(v, name) <==> Applied(v.d, name).Some?
    ensures Sets(v, name) ==> Applied(v.d, name).value == Effective(v.d).1
  {}

  lemma FlagsAdd(f: Facts, v: Visit)
    ensures var g := Add(f, v);
      && (g.hasRemote <==> f.hasRemote || Applied(v.d, "remote").Some?)
      && (g.hasClient <==> f.hasClient || Applied(v.d, "client").Some? || Applied(v.d, "tls-client").Some?)
      && (g.pull <==> f.pull || Applied(v.d, "client").Some? || Applied(v.d, "pull").Some?)
      && (g.bind <==> f.bind || Applied(v.d, "bind").Some? || BindsHere(v.d))
  {
    SetsMeans(v, "remote");
    SetsMeans(v, "client");
    SetsMeans(v, "tls-client");
    SetsMeans(v, "pull");
    SetsMeans(v, "bind");
    SetsMeans(v, "local");
    if v.d.name in STRIP_ONLY { SetsNothing(v); }
    hide Sets, Applied, Effective;
  }

  /** A directive to strip applies nothing else. */
  lemma SetsNothing(v: Visit)
    requires v.d.name in STRIP_ONLY
    ensures forall name :: name !in STRIP_ONLY ==> Applied(v.d, name).None?
  {}
  lemma LinesAdd(f: Facts, v: Visit)
    ensures var g := Add(f, v);
      && g.lowPort == (if RootsPort(v.d) then f.lowPort + [v.d.line] else f.lowPort)
      && g.strip == (if v.d.name in {"user", "group"} then f.strip + [v.d.line] else f.strip)
      && g.persist == (if Applied(v.d, "persist-remote-ip").Some? then f.persist + [v.d.line] else f.persist)
  {
    SetsMeans(v, "port");
    SetsMeans(v, "persist-remote-ip");
    if v.d.name in STRIP_ONLY { SetsNothing(v); }
    hide Sets, Applied, Effective;
  }

  lemma FlagsMore(w: seq<Visit>, f: Facts, v: Visit)
    requires FlagsMean(w, f)
    ensures FlagsMean(w + [v], Add(f, v))
  {
    FlagsAdd(f, v);
    hide Add, Applied, BindsHere;
    assert forall u :: u in w + [v] <==> u in w || u == v;
  }

  lemma LinesMore(w: seq<Visit>, f: Facts, v: Visit)
    requires LinesMean(w, f)
    ensures LinesMean(w + [v], Add(f, v))
  {
    LinesAdd(f, v);
    hide Add, Applied, RootsPort;
    assert forall u :: u in w + [v] <==> u in w || u == v;
  }

  lemma {:induction false} FactsAre(w: seq<Visit>)
    ensures FlagsMean(w, FactsOf(w)) && LinesMean(w, FactsOf(w))
  {
    hide Add, FlagsMean, LinesMean;
    if w == [] {
      NoFacts();
    } else {
      FactsAre(w[..|w|-1]);
      FlagsMore(w[..|w|-1], FactsOf(w[..|w|-1]), w[|w|-1]);
      LinesMore(w[..|w|-1], FactsOf(w[..|w|-1]), w[|w|-1]);
      assert w == w[..|w|-1] + [w[|w|-1]];
    }
  }

  lemma NoFacts()
    ensures FlagsMean([], NO_FACTS) && LinesMean([], NO_FACTS)
  {}

  /** The profile may be run. */
  ghost predicate Acceptable(ds: seq<Directive>) {
    var f := FactsOf(Walk(ds));
    && (forall v | v in Walk(ds) :: Permitted(v))
    && f.hasRemote && f.hasClient
    && (f.lowPort == [] || (!f.bind && f.pull))
  }

  /** The lines to blank: user and group, and persist-remote-ip if there is more than one remote. */
  function StripLines(ds: seq<Directive>): seq<nat> {
    var f := FactsOf(Walk(ds));
    f.strip + (if |Remotes(ds)| > 1 then f.persist else [])
  }

  /**
   * A profile may be run if and only if each of its directives is ordinary, blocks
   * hold no user or group, it names a server, it is a client, and no port that only
   * root may bind is bound.
   */
  lemma AcceptedExactly(ds: seq<Directive>)
    ensures Acceptable(ds) <==>
      && (forall d | InProfile(ds, d) :: Ordinary(d))
      && (forall d | InBlock(ds, d) :: d.name != "user" && d.name != "group")
      && Applies(ds, "remote")
      && (Applies(ds, "client") || Applies(ds, "tls-client"))
      && ((exists d | InProfile(ds, d) :: RootsPort(d)) ==> !Binds(ds) && (Applies(ds, "client") || Applies(ds, "pull")))
  {
    var w, f := Walk(ds), FactsOf(Walk(ds));
    FactsAre(w);
    Visited(ds);
    PermittedMeans(ds);
    OrdinaryThroughout(ds);
    hide Walk, FactsOf, Checked, Ordinary, Applied, RootsPort, BindsHere, InProfile, InBlock, Permitted;
    assert f.hasRemote <==> Applies(ds, "remote");
    assert f.hasClient <==> Applies(ds, "client") || Applies(ds, "tls-client");
    assert f.pull <==> Applies(ds, "client") || Applies(ds, "pull");
    assert f.bind <==> Binds(ds);
    assert f.lowPort != [] ==> f.lowPort[0] in f.lowPort;
    assert forall v | v in w && RootsPort(v.d) :: v.d.line in f.lowPort;
    assert f.lowPort != [] <==> exists d | InProfile(ds, d) :: RootsPort(d);
  }

  lemma OrdinaryThroughout(ds: seq<Directive>)
    ensures forall d | InProfile(ds, d) :: Ordinary(d) <==> Checked(d)
  {
    hide Checked, Ordinary, InProfile;
    forall d | InProfile(ds, d) ensures Ordinary(d) <==> Checked(d) {
      if Checked(d) { CheckedIsOrdinary(d); }
      if Ordinary(d) { OrdinaryIsChecked(d); }
    }
  }

  lemma PermittedMeans(ds: seq<Directive>)
    ensures (forall v | v in Walk(ds) :: Permitted(v)) <==>
      (forall d | InProfile(ds, d) :: Checked(d)) && (forall d | InBlock(ds, d) :: d.name != "user" && d.name != "group")
  {
    Visited(ds);
    hide Walk, Checked;
    if forall v | v in Walk(ds) :: Permitted(v) {
      forall d | InProfile(ds, d) ensures Checked(d) {
        var top :| Visit(d, top) in Walk(ds);
        assert Permitted(Visit(d, top));
      }
      forall d | InBlock(ds, d) ensures d.name != "user" && d.name != "group" {
        assert Visit(d, false) in Walk(ds);
      }
    }
  }

  /** What is visited is what the profile holds. */
  lemma Visited(ds: seq<Directive>)
    ensures forall v :: v in Walk(ds) <==> if v.top then v.d in ds else InBlock(ds, v.d)
    ensures forall d | InProfile(ds, d) :: exists top :: Visit(d, top) in Walk(ds)
    ensures forall v | v in Walk(ds) :: InProfile(ds, v.d)
  {
    forall v ensures v in Walk(ds) <==> if v.top then v.d in ds else InBlock(ds, v.d) { WalkIs(ds, v); }
    forall d | InProfile(ds, d) ensures exists top :: Visit(d, top) in Walk(ds) {
      WalkIs(ds, Visit(d, true));
      WalkIs(ds, Visit(d, false));
    }
  }

  /** What is stripped: every user and group, and with several remotes every persist-remote-ip, wherever it is. */
  lemma StripsExactly(ds: seq<Directive>)
    requires Acceptable(ds)
    ensures forall l :: l in StripLines(ds) <==>
      || (exists d | d in ds :: d.name in {"user", "group"} && d.line == l)
      || (|Remotes(ds)| > 1 && exists d | InProfile(ds, d) :: Applied(d, "persist-remote-ip").Some? && d.line == l)
  {
    var w, f := Walk(ds), FactsOf(Walk(ds));
    FactsAre(w);
    Visited(ds);
    hide Walk, FactsOf, Checked, Applied, InProfile, InBlock, Remotes, FlagsMean;
    forall l ensures l in f.strip <==> exists d | d in ds :: d.name in {"user", "group"} && d.line == l {
      if l in f.strip {
        var v :| v in w && v.d.name in {"user", "group"} && v.d.line == l;
        assert Permitted(v);
      }
      if d :| d in ds && d.name in {"user", "group"} && d.line == l {
        assert Visit(d, true) in w;
      }
    }
    forall l ensures l in f.persist <==> exists d | InProfile(ds, d) :: Applied(d, "persist-remote-ip").Some? && d.line == l {}
  }

  /** Nothing in the profile, a setenv opt's payload included, is more than harmless. */
  ghost predicate AllHarmless(ds: seq<Directive>) {
    forall d, e | InProfile(ds, d) && e in Readings(d) :: Harmless(e)
  }

  lemma AcceptedIsHarmless(ds: seq<Directive>)
    requires Acceptable(ds)
    ensures AllHarmless(ds)
  {
    PermittedMeans(ds);
    hide Checked, Harmless, Permitted, Walk, FactsOf;
    forall d, e | InProfile(ds, d) && e in Readings(d) ensures Harmless(e) { CheckedIsHarmless(d, e); }
  }

  /** Why a profile that reads is refused. */
  ghost predicate Refuses(ds: seq<Directive>, e: InspectError) {
    match e
    case TooBig => false
    case Unreadable(_) => false
    case NotAllowed(line) => exists d | InProfile(ds, d) :: d.line == line && (!Ordinary(d) || (InBlock(ds, d) && d.name in {"user", "group"}))
    case NoRemote => !Applies(ds, "remote")
    case NoClient => !Applies(ds, "client") && !Applies(ds, "tls-client")
    case PrivilegedPort(line) =>
      && (exists d | InProfile(ds, d) :: RootsPort(d) && d.line == line)
      && (Binds(ds) || (!Applies(ds, "client") && !Applies(ds, "pull")))
  }

  lemma FactsRefuse(ds: seq<Directive>)
    ensures var f := FactsOf(Walk(ds));
      && (!f.hasRemote ==> Refuses(ds, NoRemote))
      && (!f.hasClient ==> Refuses(ds, NoClient))
      && (f.lowPort != [] && (f.bind || !f.pull) ==> Refuses(ds, PrivilegedPort(f.lowPort[0])))
    ensures forall v | v in Walk(ds) && !Permitted(v) :: Refuses(ds, NotAllowed(v.d.line))
  {
    var w, f := Walk(ds), FactsOf(Walk(ds));
    FactsAre(w);
    Visited(ds);
    OrdinaryThroughout(ds);
    hide Walk, FactsOf, Checked, Ordinary, Applied, RootsPort, BindsHere, InProfile, InBlock;
    if f.lowPort != [] && (f.bind || !f.pull) {
      assert f.lowPort[0] in f.lowPort;
      var v :| v in w && RootsPort(v.d) && v.d.line == f.lowPort[0];
      assert f.bind ==> Binds(ds);
    }
  }

  /**
   * Accepts exactly the profiles that may be run and says for the others why not.
   * An accepted one holds nothing more than harmless.
   */
  method InspectProfile(data: string) returns (r: Result<Inspected, InspectError>)
    ensures r.Ok? <==> |data| <= 1048576 && Parsed(data).Ok? && Acceptable(Parsed(data).value)
    ensures r.Ok? ==> r.value == Inspected(Remotes(Parsed(data).value), StripLines(Parsed(data).value))
    ensures r.Ok? ==> AllHarmless(Parsed(data).value)
    ensures r.Err? ==>
      if |data| > 1048576 then r.error == TooBig
      else if Parsed(data).Err? then r.error == Unreadable(Parsed(data).error)
      else Refuses(Parsed(data).value, r.error)
  {
    hide Checked, Ordinary, Harmless, Permitted, Walk, Refuses, Remotes;
    if |data| > MAX_SIZE {
      return Err(TooBig);
    }
    var parsed := ParseConfig(data);
    if parsed.Err? {
      return Err(Unreadable(parsed.error));
    }
    var ds := parsed.value;
    FactsRefuse(ds);
    var facts := VisitAll(ds);
    if facts.Err? {
      return Err(facts.error);
    }
    var f := facts.value;
    if !f.hasRemote {
      return Err(NoRemote);
    }
    if !f.hasClient {
      return Err(NoClient);
    }
    if |f.lowPort| > 0 && (f.bind || !f.pull) {
      return Err(PrivilegedPort(f.lowPort[0]));
    }
    AcceptedIsHarmless(ds);
    var strip := f.strip;
    var remotes := CollectRemotes(ds);
    if |remotes| > 1 {
      strip := strip + f.persist;
    }
    assert f.strip + [] == f.strip;
    return Ok(Inspected(remotes, strip));
  }

  // ---- the runtime config ----

  /** strings.SplitAfter(s, "\n"): the last piece is empty if s ends with a newline. */
  function SplitAfter(s: string): (r: seq<string>)
    ensures |r| > 0
    decreases |s|
  {
    var e := LineEnd(s, 0, |s|);
    if e == 0 || s[e-1] != '\n' then [s] else [s[..e]] + SplitAfter(s[e..])
  }

  function Blank(l: string): string { if Ended(l) then "\n" else "" }

  /** The text with the given lines blanked, the first of which has number k. */
  function Blanked(lines: seq<string>, k: nat, drop: set<nat>): string {
    if lines == [] then "" else (if k in drop then Blank(lines[0]) else lines[0]) + Blanked(lines[1..], k + 1, drop)
  }

  function Runtime(data: string, strip: set<nat>): string { Blanked(SplitAfter(data), 1, strip) }

  method RuntimeConfig(data: string, stripLines: seq<nat>) returns (r: string)
    ensures r == Runtime(data, set l | l in stripLines)
  {
    var drop := set l | l in stripLines;
    var lines := SplitAfter(data);
    if |stripLines| == 0 {
      NothingBlanked(data, 1);
      assert drop == {};
      return data;
    }
    r := "";
    hide Blanked, SplitAfter;
    assert lines[0..] == lines && "" + Blanked(lines, 1, drop) == Blanked(lines, 1, drop);
    for i := 0 to |lines|
      invariant r + Blanked(lines[i..], i + 1, drop) == Runtime(data, drop)
    {
      BlankedNext(r, lines, i, drop);
      if i + 1 in drop {
        if Ended(lines[i]) {
          r := r + "\n";
        }
        continue;
      }
      r := r + lines[i];
    }
    BlankedLast(r, lines, drop);
  }

  /** What has been written grows by one line. */
  lemma BlankedNext(r: string, lines: seq<string>, i: nat, drop: set<nat>)
    requires i < |lines|
    ensures r + Blanked(lines[i..], i + 1, drop) ==
            (if i + 1 in drop then if Ended(lines[i]) then r + "\n" else r else r + lines[i]) + Blanked(lines[i+1..], i + 2, drop)
  {
    var piece, rest := if i + 1 in drop then Blank(lines[i]) else lines[i], Blanked(lines[i+1..], i + 2, drop);
    assert lines[i..] == [lines[i]] + lines[i+1..];
    BlankedFirst(lines[i], lines[i+1..], i + 1, drop);
    hide Blanked;
    assert r + (piece + rest) == r + piece + rest;
    assert r + "" == r;
  }

  lemma BlankedLast(r: string, lines: seq<string>, drop: set<nat>)
    ensures r + Blanked(lines[|lines|..], |lines| + 1, drop) == r
  {
    NoneLeft(|lines| + 1, drop);
    assert lines[|lines|..] == [] && r + "" == r;
  }

  lemma NoneLeft(k: nat, drop: set<nat>)
    ensures Blanked([], k, drop) == ""
  {}

  lemma BlankedFirst(l: string, lines: seq<string>, k: nat, drop: set<nat>)
    ensures Blanked([l] + lines, k, drop) == (if k in drop then Blank(l) else l) + Blanked(lines, k + 1, drop)
  {
    assert ([l] + lines)[1..] == lines;
  }

  /** A text splits after its first newline, unless its first line is its last. */
  lemma SplitFirst(s: string) returns (l: string, rest: string, last: bool)
    ensures s == l + rest && (if last then rest == "" else |rest| < |s|)
    ensures SplitAfter(s) == [l] + (if last then [] else SplitAfter(rest))
  {
    var e := LineEnd(s, 0, |s|);
    hide LineEnd;
    last := e == 0 || s[e-1] != '\n';
    if last {
      l, rest := s, "";
      assert [s] + [] == [s];
    } else {
      l, rest := s[..e], s[e..];
    }
  }

  lemma {:induction false} NothingBlanked(s: string, k: nat)
    ensures Blanked(SplitAfter(s), k, {}) == s
    decreases |s|
  {
    hide *;
    var l, rest, last := SplitFirst(s);
    if last {
      BlankedFirst(l, [], k, {});
      NoneLeft(k + 1, {});
      assert l + "" == l;
    } else {
      BlankedFirst(l, SplitAfter(rest), k, {});
      NothingBlanked(rest, k + 1);
    }
  }
}
