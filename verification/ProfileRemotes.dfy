// The servers that a profile names: host, port and transport of each, with the
// defaults that its options set (internal/ovpn/config.go).
module ProfileRemotes {
  import opened Common
  import opened ProfileReader
  import opened Profile

  // ---- options ----

  /** A plain option with an argument. */
  predicate IsOption(d: Directive, names: set<string>) { d.name in names && !d.inlined && d.args != [] }

  /** The argument that the last of the options gives. */
  function LastOf(ds: seq<Directive>, names: set<string>, otherwise: string): string {
    if ds == [] then otherwise
    else if IsOption(ds[|ds|-1], names) then ds[|ds|-1].args[0]
    else LastOf(ds[..|ds|-1], names, otherwise)
  }

  lemma {:induction false} DefaultsMore(def: Defaults, ds: seq<Directive>, d: Directive)
    ensures DefaultsOf(def, ds + [d]) == Apply(DefaultsOf(def, ds), d)
    decreases |ds|
  {
    hide Apply;
    if ds == [] {
      assert ([] + [d])[0] == d && ([] + [d])[1..] == [];
    } else {
      assert (ds + [d])[0] == ds[0] && (ds + [d])[1..] == ds[1..] + [d];
      DefaultsMore(Apply(def, ds[0]), ds[1..], d);
    }
  }

  /** The last proto and the last port or rport count, wherever they stand. */
  lemma {:induction false} DefaultsAre(def: Defaults, ds: seq<Directive>)
    ensures DefaultsOf(def, ds) == Defaults(LastOf(ds, {"proto"}, def.proto), LastOf(ds, {"port", "rport"}, def.port))
  {
    if ds != [] {
      var before, d := ds[..|ds|-1], ds[|ds|-1];
      assert ds == before + [d];
      DefaultsMore(def, before, d);
      DefaultsAre(def, before);
    }
  }

  // ---- remotes ----

  predicate Bracketless(host: string) {
    host == "" || (host[0] != '[' && host[0] != ']' && host[|host|-1] != '[' && host[|host|-1] != ']')
  }

  predicate AllBrackets(s: string) { forall c | c in s :: c == '[' || c == ']' }

  /** The text but for square brackets around it. */
  lemma {:induction false} BracketsGo(s: string) returns (a: string, b: string)
    ensures s == a + TrimBrackets(s) + b && AllBrackets(a) && AllBrackets(b) && Bracketless(TrimBrackets(s))
    decreases |s|
  {
    a, b := "", "";
    if s != "" && IsBracket(s[0]) {
      a, b := BracketsGo(s[1..]);
      a := [s[0]] + a;
      assert s == [s[0]] + s[1..];
    } else if s != "" && IsBracket(s[|s|-1]) {
      a, b := BracketsGo(s[..|s|-1]);
      b := b + [s[|s|-1]];
      assert s == s[..|s|-1] + [s[|s|-1]];
    } else {
      assert s == "" + s + "";
    }
  }

  /** tcp, tcp4, TCP-client and the like. */
  predicate SaysTcp(proto: string) {
    |proto| >= 3 && (proto[0] == 't' || proto[0] == 'T') && (proto[1] == 'c' || proto[1] == 'C') && (proto[2] == 'p' || proto[2] == 'P')
  }

  lemma TransportIs(proto: string)
    ensures TransportProto(proto) == if SaysTcp(proto) then "tcp" else "udp"
  {}

  /** r is the server of the remote d, where proto and port are the defaults. */
  ghost predicate Names(d: Directive, proto: string, port: string, r: Remote) {
    && IsOption(d, {"remote"}) && d.args[0] != ""
    && (exists a, b :: d.args[0] == a + r.host + b && AllBrackets(a) && AllBrackets(b)) && Bracketless(r.host)
    && r.port == (if |d.args| > 1 && d.args[1] != "" then d.args[1] else port)
    && r.proto == (if SaysTcp(if |d.args| > 2 && d.args[2] != "" then d.args[2] else proto) then "tcp" else "udp")
  }

  lemma RemoteIs(d: Directive, def: Defaults)
    ensures if IsOption(d, {"remote"}) && d.args[0] != "" then |RemoteOf(d, def)| == 1 && Names(d, def.proto, def.port, RemoteOf(d, def)[0])
            else RemoteOf(d, def) == []
  {
    if IsOption(d, {"remote"}) && d.args[0] != "" {
      var a, b := BracketsGo(d.args[0]);
      TransportIs(if |d.args| > 2 && d.args[2] != "" then d.args[2] else def.proto);
      hide TrimBrackets, TransportProto, SaysTcp;
    }
  }

  /** The remotes among ds, in their order. */
  function RemotesAmong(ds: seq<Directive>): seq<Directive> {
    if ds == [] then []
    else (if IsOption(ds[0], {"remote"}) && ds[0].args[0] != "" then [ds[0]] else []) + RemotesAmong(ds[1..])
  }

  ghost predicate AllNamed(ds: seq<Directive>, proto: string, port: string, rs: seq<Remote>) {
    |rs| == |ds| && forall i | 0 <= i < |rs| :: Names(ds[i], proto, port, rs[i])
  }

  lemma {:induction false} RemotesNamed(ds: seq<Directive>, def: Defaults)
    ensures AllNamed(RemotesAmong(ds), def.proto, def.port, RemotesOf(ds, def))
  {
    hide Names, RemoteOf, IsOption;
    if ds != [] {
      RemoteIs(ds[0], def);
      RemotesNamed(ds[1..], def);
    }
  }


  /**
   * The servers of a profile from the first directive on: a remote's own, or those
   * of a block, whose own proto and port count before the profile's.
   */
  ghost predicate NamedIn(ds: seq<Directive>, proto: string, port: string, rs: seq<Remote>) {
    if ds == [] then rs == []
    else
      var top, inner := RemotesAmong([ds[0]]), RemotesAmong(ds[0].children);
      && |top| + |inner| <= |rs|
      && AllNamed(top, proto, port, rs[..|top|])
      && AllNamed(inner, LastOf(ds[0].children, {"proto"}, proto), LastOf(ds[0].children, {"port", "rport"}, port), rs[|top|..|top| + |inner|])
      && NamedIn(ds[1..], proto, port, rs[|top| + |inner|..])
  }

  lemma {:induction false} RemotesNamedIn(ds: seq<Directive>, global: Defaults)
    ensures NamedIn(ds, global.proto, global.port, RemotesWith(ds, global))
  {
    if ds != [] {
      var d := ds[0];
      var own := DefaultsOf(global, d.children);
      DefaultsAre(global, d.children);
      RemotesNamed([d], global);
      RemotesNamed(d.children, own);
      RemotesNamedIn(ds[1..], global);
      var a, b, c := RemotesOf([d], global), RemotesOf(d.children, own), RemotesWith(ds[1..], global);
      assert [d][1..] == [] && RemoteOf(d, global) + [] == RemoteOf(d, global);
      assert a == RemoteOf(d, global);
      hide RemoteOf, RemotesOf, Names, DefaultsOf, LastOf, RemotesAmong, AllNamed;
      var rs := a + b + c;
      assert RemotesWith(ds, global) == rs && rs[..|a|] == a && rs[|a|..|a| + |b|] == b && rs[|a| + |b|..] == c;
    }
  }

  /** Exactly the profile's remotes are collected, in order, udp to port 1194 unless the profile says otherwise. */
  lemma RemotesExactly(ds: seq<Directive>)
    ensures NamedIn(ds, LastOf(ds, {"proto"}, "udp"), LastOf(ds, {"port", "rport"}, "1194"), Remotes(ds))
  {
    DefaultsAre(Defaults("udp", "1194"), ds);
    RemotesNamedIn(ds, DefaultsOf(Defaults("udp", "1194"), ds));
  }
}
