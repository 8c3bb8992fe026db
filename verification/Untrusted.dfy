// What the allowlist keeps out of openvpn, which runs as root with a profile
// that nobody has vetted (internal/ovpn/allowlist.go, its tests).
module Untrusted {
  import opened Common
  import opened Numbers
  import opened ProfileReader
  import opened Allowlist

  /** Options that run a program or load a library of the profile's choice. */
  const PROGRAMS := {
    "up", "down", "route-up", "route-pre-down", "ipchange", "tls-verify", "iproute", "client-connect",
    "client-disconnect", "client-crresponse", "learn-address", "auth-user-pass-verify", "tls-crypt-v2-verify",
    "plugin", "engine", "pkcs11-providers"}

  /** Options that read or write a file or a directory that an argument names. */
  const FILES := {
    "config", "log", "log-append", "status", "writepid", "askpass", "secret", "capath", "tls-export-cert", "genkey",
    "replay-persist", "ifconfig-pool-persist", "client-config-dir", "tmp-dir", "dev-node", "auth-gen-token-secret"}

  /** Options that change what the process is, or who may command it. */
  const PROCESS := {
    "cd", "chroot", "daemon", "inetd", "setcon", "status-version", "server", "tls-server", "management",
    "management-client", "management-hold"}

  /** Options whose argument would be the path of a key, a certificate or a password file. */
  const MATERIAL := {
    "ca", "cert", "key", "extra-certs", "pkcs12", "crl-verify", "dh", "tls-auth", "tls-crypt", "tls-crypt-v2",
    "http-proxy-user-pass"}

  /** d, and what openvpn applies instead if d is a setenv opt: the directive behind it, to any depth. */
  function Readings(d: Directive): set<Directive>
    decreases |d.args|
  {
    {d} + (if d.name == "setenv" && |d.args| >= 2 && d.args[0] == "opt"
           then Readings(Directive(d.args[1], d.args[2..], d.line, false, "", [])) else {})
  }

  /** The variables that a profile may set: those openvpn reads itself, and those that only tell the server something. */
  predicate HarmlessVariable(name: string) {
    || name == "FORWARD_COMPATIBLE" || name == "PUSH_PEER_INFO" || name == "REMOTE_RANDOM_HOSTNAME"
    || name == "SERVER_POLL_TIMEOUT" || name == "CLIENT_CERT" || "UV_" <= name || "IV_" <= name
  }

  /** 0, or 1024 to 65535: no port that only root may bind. */
  predicate AnyonesPort(port: string) {
    Atoi(port) == Some(0) || (Atoi(port).Some? && 1024 <= Atoi(port).value <= 65535)
  }

  /** tun or utun and at most three digits. */
  ghost predicate TunName(device: string) {
    exists n, digits: string | n in {"tun", "utun"} && AllDigits(digits) && |digits| <= 3 :: device == n + digits
  }

  /** Nothing in it runs, loads, opens or becomes anything of the profile's choice. */
  predicate Inert(d: Directive) {
    && d.name !in PROGRAMS && d.name !in FILES && d.name !in PROCESS
    && (d.name in MATERIAL ==> d.inlined)
  }

  /** No argument is a file of credentials. */
  predicate NoCredentialsFile(d: Directive) {
    && (d.name == "auth-user-pass" ==> d.inlined || d.args == [])
    && (d.name == "http-proxy" && |d.args| > 2 ==> d.args[2] in {"auto", "auto-nct", "stdin"})
    && (d.name == "socks-proxy" && |d.args| > 2 ==> d.args[2] == "stdin")
  }

  /** No variable but a harmless one, no device but a tun, no script, no module and no port that only root may bind. */
  ghost predicate NoPrivilege(d: Directive) {
    && (d.name == "setenv" ==> d.args != [] && (d.args[0] == "opt" || HarmlessVariable(d.args[0])))
    && (d.name == "dev" ==> |d.args| == 1 && TunName(d.args[0]))
    && (d.name == "dev-type" ==> d.args == ["tun"])
    && (d.name == "dns-updown" ==> d.args == ["disable"])
    && (d.name == "providers" ==> forall p | p in d.args :: p == "legacy" || p == "default" || p == "base")
    && (d.name == "lport" ==> |d.args| == 1 && AnyonesPort(d.args[0]))
    && (d.name == "local" && |d.args| > 1 ==> AnyonesPort(d.args[1]))
  }

  ghost predicate Harmless(d: Directive) { Inert(d) && NoCredentialsFile(d) && NoPrivilege(d) }

  // ---- none of them is in the table ----

  lemma ProgramConnectsNothing(name: string)
    requires name in PROGRAMS
    ensures !ConnectionOption(name) && !PersistenceOption(name)
  {}

  lemma ProgramEncryptsNothing(name: string)
    requires name in PROGRAMS
    ensures !CryptoOption(name)
  {}

  lemma ProgramRoutesNothing(name: string)
    requires name in PROGRAMS
    ensures !RoutingOption(name)
  {}

  lemma ProgramIsNoDetail(name: string)
    requires name in PROGRAMS
    ensures !SessionOption(name) && !LivenessOption(name) && !HarmlessOption(name)
  {}

  lemma FileConnectsNothing(name: string)
    requires name in FILES
    ensures !ConnectionOption(name) && !PersistenceOption(name)
  {}

  lemma FileEncryptsNothing(name: string)
    requires name in FILES
    ensures !CryptoOption(name)
  {}

  lemma FileRoutesNothing(name: string)
    requires name in FILES
    ensures !RoutingOption(name)
  {}

  lemma FileIsNoDetail(name: string)
    requires name in FILES
    ensures !SessionOption(name) && !LivenessOption(name) && !HarmlessOption(name)
  {}

  lemma ProcessConnectsNothing(name: string)
    requires name in PROCESS
    ensures !ConnectionOption(name) && !PersistenceOption(name)
  {}

  lemma ProcessEncryptsNothing(name: string)
    requires name in PROCESS
    ensures !CryptoOption(name)
  {}

  lemma ProcessRoutesNothing(name: string)
    requires name in PROCESS
    ensures !RoutingOption(name)
  {}

  lemma ProcessIsNoDetail(name: string)
    requires name in PROCESS
    ensures !SessionOption(name) && !LivenessOption(name) && !HarmlessOption(name)
  {}

  lemma ProgramNotListed(name: string)
    requires name in PROGRAMS
    ensures RuleOf(name).None?
  {
    hide ConnectionOption, PersistenceOption, CryptoOption, SessionOption, RoutingOption, LivenessOption, HarmlessOption;
    ProgramConnectsNothing(name);
    ProgramEncryptsNothing(name);
    ProgramRoutesNothing(name);
    ProgramIsNoDetail(name);
  }

  lemma FileNotListed(name: string)
    requires name in FILES
    ensures RuleOf(name).None?
  {
    hide ConnectionOption, PersistenceOption, CryptoOption, SessionOption, RoutingOption, LivenessOption, HarmlessOption;
    FileConnectsNothing(name);
    FileEncryptsNothing(name);
    FileRoutesNothing(name);
    FileIsNoDetail(name);
  }

  lemma ProcessNotListed(name: string)
    requires name in PROCESS
    ensures RuleOf(name).None?
  {
    hide ConnectionOption, PersistenceOption, CryptoOption, SessionOption, RoutingOption, LivenessOption, HarmlessOption;
    ProcessConnectsNothing(name);
    ProcessEncryptsNothing(name);
    ProcessRoutesNothing(name);
    ProcessIsNoDetail(name);
  }

  lemma CheckedIsInert(d: Directive)
    requires Checked(d)
    ensures Inert(d)
  {
    if d.name in PROGRAMS {
      ProgramNotListed(d.name);
    } else if d.name in FILES {
      FileNotListed(d.name);
    } else if d.name in PROCESS {
      ProcessNotListed(d.name);
    } else if d.name in MATERIAL {
      MaterialIsInline(d);
    }
  }

  lemma MaterialIsInline(d: Directive)
    requires Checked(d) && d.name in MATERIAL
    ensures d.inlined
  {
    hide IsPlain;
    assert IsInlineOnly(d.name);
  }

  lemma CheckedReadsNoFile(d: Directive)
    requires Checked(d)
    ensures NoCredentialsFile(d)
  {
    hide IsPlain, IsInlineOnly;
  }

  lemma DeviceIsTun(device: string)
    ensures DeviceName(device) <==> TunName(device)
  {
    if DeviceName(device) {
      var n := if "u" <= device then "utun" else "tun";
      assert device == n + device[|n|..];
    }
    if n, digits: string :| n in {"tun", "utun"} && AllDigits(digits) && |digits| <= 3 && device == n + digits {
      assert device[0] == n[0] && (n == "utun" ==> n[1..] == "tun" && device[1..] == "tun" + digits);
      var t := if "u" <= device then device[1..] else device;
      assert t == "tun" + digits && t[3..] == digits;
    }
  }

  lemma CheckedHasNoPrivilege(d: Directive)
    requires Checked(d)
    ensures NoPrivilege(d)
  {
    hide IsPlain, IsInlineOnly;
    if d.name == "dev" {
      DeviceIsTun(d.args[0]);
    }
  }

  /** Whatever the allowlist accepts is harmless, and so is all that it applies from behind a setenv opt. */
  lemma {:induction false} CheckedIsHarmless(d: Directive, e: Directive)
    requires Checked(d) && e in Readings(d)
    ensures Harmless(e) && (e == d || (e.name != "user" && e.name != "group" && !e.inlined))
    decreases |d.args|
  {
    hide Checked, Harmless;
    if e == d {
      CheckedAlone(d);
    } else {
      var inner := Directive(d.args[1], d.args[2..], d.line, false, "", []);
      SetenvOptIsChecked(d);
      CheckedIsHarmless(inner, e);
    }
  }

  lemma CheckedAlone(d: Directive)
    requires Checked(d)
    ensures Harmless(d)
  {
    CheckedIsInert(d);
    CheckedReadsNoFile(d);
    CheckedHasNoPrivilege(d);
    hide Checked, Inert, NoCredentialsFile, NoPrivilege;
  }

  // ---- and what a client needs is ----

  /** Options of ordinary client profiles, on servers and transport. */
  const CONNECTING := {
    "client", "tls-client", "pull", "remote", "remote-random", "remote-random-hostname", "resolv-retry", "proto",
    "proto-force", "port", "rport", "bind", "nobind", "float", "sndbuf", "rcvbuf", "socket-flags", "fast-io",
    "http-proxy-option", "allow-pull-fqdn"}

  /** On trying again, and on what outlasts a restart. */
  const KEEPING_UP := {
    "connect-retry", "connect-retry-max", "connect-timeout", "server-poll-timeout", "explicit-exit-notify",
    "persist-key", "persist-tun", "persist-remote-ip", "persist-local-ip", "keepalive", "ping", "ping-restart",
    "ping-exit", "ping-timer-rem", "inactive"}

  /** On keys and ciphers. */
  const SECURING := {
    "remote-cert-tls", "remote-cert-ku", "remote-cert-eku", "ns-cert-type", "verify-x509-name", "auth", "cipher",
    "data-ciphers", "data-ciphers-fallback", "ncp-ciphers", "tls-version-min", "tls-version-max", "tls-cipher",
    "tls-ciphersuites", "tls-groups", "ecdh-curve", "tls-cert-profile", "key-direction"}

  const REKEYING := {
    "hand-window", "tran-window", "tls-timeout", "reneg-sec", "reneg-bytes", "reneg-pkts", "replay-window",
    "compat-mode", "comp-lzo", "compress", "allow-compression"}

  /** On logins and messages. */
  const LOGGING_IN := {
    "verb", "mute", "mute-replay-warnings", "auth-nocache", "auth-retry", "static-challenge", "push-peer-info"}

  /** On routes, name servers and packet sizes. */
  const ROUTING := {
    "pull-filter", "route", "route-ipv6", "route-nopull", "route-gateway", "route-ipv6-gateway", "route-metric",
    "route-delay", "redirect-gateway", "redirect-private", "block-ipv6", "allow-recursive-routing", "dhcp-option", "dns",
    "topology", "tun-mtu", "tun-mtu-extra", "tun-mtu-max", "mssfix", "fragment", "link-mtu", "mtu-disc"}

  /** Without effect here. */
  const IDLE := {
    "tun-ipv6", "disable-occ", "disable-dco", "ignore-unknown-option", "script-security", "route-method",
    "block-outside-dns", "register-dns", "ip-win32", "dhcp-renew", "dhcp-release", "dhcp-pre-release", "tap-sleep",
    "user", "group"}

  predicate IsCommon(name: string) {
    || name in CONNECTING || name in KEEPING_UP || name in SECURING || name in REKEYING || name in LOGGING_IN
    || name in ROUTING || name in IDLE
  }

  predicate OrdinaryVariable(name: string) {
    1 <= |name| <= 64 && forall c | c in name :: '0' <= c <= '9' || 'a' <= c <= 'z' || 'A' <= c <= 'Z' || c == '_'
  }

  /** An option that may not have every argument, with ordinary ones. */
  ghost predicate InBounds(name: string, a: seq<string>) {
    || name == "peer-fingerprint" || name == "verify-hash"
    || (name == "auth-user-pass" && a == [])
    || (name == "http-proxy" &&
        (|a| <= 2 || (|a| == 3 && a[2] in {"auto", "auto-nct", "stdin"}) || (|a| == 4 && a[2] == "stdin")))
    || (name == "socks-proxy" && (|a| <= 2 || (|a| == 3 && a[2] == "stdin")))
    || (name == "dev" && |a| == 1 && TunName(a[0]))
    || (name == "dev-type" && a == ["tun"])
    || (name == "dns-updown" && a == ["disable"])
    || (name == "providers" && forall p | p in a :: p in {"legacy", "default", "base"})
    || (name == "lport" && |a| == 1 && AnyonesPort(a[0]))
    || (name == "local" && (|a| < 2 || AnyonesPort(a[1])))
    || (name == "setenv" && 1 <= |a| <= 2 && a[0] != "opt" && OrdinaryVariable(a[0]) && HarmlessVariable(a[0]))
    || (name == "setenv-safe" && 1 <= |a| <= 2 && OrdinaryVariable(a[0]))
  }

  /** A directive of an ordinary client profile. */
  ghost predicate Ordinary(d: Directive)
    decreases |d.args|
  {
    if d.inlined then d.name in MATERIAL || d.name in {"connection", "auth-user-pass", "peer-fingerprint", "verify-hash"}
    else
      || IsCommon(d.name)
      || InBounds(d.name, d.args)
      || (d.name == "setenv" && |d.args| >= 2 && d.args[0] == "opt" && d.args[1] !in {"user", "group"} &&
          Ordinary(Directive(d.args[1], d.args[2..], d.line, false, "", [])))
  }

  lemma ConnectingListed(name: string)
    requires name in CONNECTING
    ensures ConnectionOption(name)
  {}

  lemma KeepingUpListed(name: string)
    requires name in KEEPING_UP
    ensures ConnectionOption(name) || PersistenceOption(name) || LivenessOption(name)
  {}

  lemma SecuringListed(name: string)
    requires name in SECURING
    ensures CryptoOption(name)
  {}

  lemma RekeyingListed(name: string)
    requires name in REKEYING
    ensures CryptoOption(name)
  {}

  lemma LoggingInListed(name: string)
    requires name in LOGGING_IN
    ensures SessionOption(name)
  {}

  lemma RoutingListed(name: string)
    requires name in ROUTING
    ensures RoutingOption(name)
  {}

  lemma IdleListed(name: string)
    requires name in IDLE
    ensures HarmlessOption(name) || name in STRIP_ONLY
  {}

  /** The allowlist takes every ordinary directive. */
  lemma {:induction false} OrdinaryIsChecked(d: Directive)
    requires Ordinary(d)
    ensures Checked(d)
    decreases |d.args|
  {
    if d.inlined {
      InlineIsChecked(d);
    } else if IsCommon(d.name) {
      PlainIsChecked(d);
    } else if InBounds(d.name, d.args) {
      InBoundsIsChecked(d);
    } else {
      hide Checked;
      OrdinaryIsChecked(Directive(d.args[1], d.args[2..], d.line, false, "", []));
      SetenvOptAllowed(d);
    }
  }

  lemma CommonIsPlain(name: string)
    requires IsCommon(name)
    ensures IsPlain(name)
  {
    hide ConnectionOption, PersistenceOption, CryptoOption, SessionOption, RoutingOption, LivenessOption, HarmlessOption;
    if name in CONNECTING {
      ConnectingListed(name);
    } else if name in KEEPING_UP {
      KeepingUpListed(name);
    } else if name in SECURING {
      SecuringListed(name);
    } else if name in REKEYING {
      RekeyingListed(name);
    } else if name in LOGGING_IN {
      LoggingInListed(name);
    } else if name in ROUTING {
      RoutingListed(name);
    } else {
      IdleListed(name);
    }
  }

  lemma ConnectingIsNotRestricted(name: string)
    requires name in CONNECTING && IsPlain(name)
    ensures RuleOf(name) == Some(Rule(Never, Anything))
  {
    hide IsPlain;
  }

  lemma KeepingUpIsNotRestricted(name: string)
    requires name in KEEPING_UP && IsPlain(name)
    ensures RuleOf(name) == Some(Rule(Never, Anything))
  {
    hide IsPlain;
  }

  lemma SecuringIsNotRestricted(name: string)
    requires name in SECURING && IsPlain(name)
    ensures RuleOf(name) == Some(Rule(Never, Anything))
  {
    hide IsPlain;
  }

  lemma RekeyingIsNotRestricted(name: string)
    requires name in REKEYING && IsPlain(name)
    ensures RuleOf(name) == Some(Rule(Never, Anything))
  {
    hide IsPlain;
  }

  lemma LoggingInIsNotRestricted(name: string)
    requires name in LOGGING_IN && IsPlain(name)
    ensures RuleOf(name) == Some(Rule(Never, Anything))
  {
    hide IsPlain;
  }

  lemma RoutingIsNotRestricted(name: string)
    requires name in ROUTING && IsPlain(name)
    ensures RuleOf(name) == Some(Rule(Never, Anything))
  {
    hide IsPlain;
  }

  lemma IdleIsNotRestricted(name: string)
    requires name in IDLE && IsPlain(name)
    ensures RuleOf(name) == Some(Rule(Never, Anything))
  {
    hide IsPlain;
  }

  lemma PlainIsChecked(d: Directive)
    requires !d.inlined && IsCommon(d.name)
    ensures Checked(d)
  {
    CommonIsPlain(d.name);
    hide IsPlain, RuleOf;
    if d.name in CONNECTING {
      ConnectingIsNotRestricted(d.name);
    } else if d.name in KEEPING_UP {
      KeepingUpIsNotRestricted(d.name);
    } else if d.name in SECURING {
      SecuringIsNotRestricted(d.name);
    } else if d.name in REKEYING {
      RekeyingIsNotRestricted(d.name);
    } else if d.name in LOGGING_IN {
      LoggingInIsNotRestricted(d.name);
    } else if d.name in ROUTING {
      RoutingIsNotRestricted(d.name);
    } else {
      IdleIsNotRestricted(d.name);
    }
  }

  lemma InlineIsChecked(d: Directive)
    requires Ordinary(d) && d.inlined
    ensures Checked(d)
  {
    hide IsPlain;
  }

  lemma InBoundsIsChecked(d: Directive)
    requires InBounds(d.name, d.args) && !d.inlined
    ensures Checked(d)
  {
    if d.name == "setenv" || d.name == "setenv-safe" {
      VariableIsChecked(d);
    } else {
      hide IsPlain, IsInlineOnly;
      if d.name == "dev" { DeviceIsTun(d.args[0]); }
    }
  }

  lemma VariableIsChecked(d: Directive)
    requires InBounds(d.name, d.args) && !d.inlined && (d.name == "setenv" || d.name == "setenv-safe")
    ensures Checked(d)
  {
    hide IsPlain, IsInlineOnly, TunName;
  }

  lemma SetenvOptAllowed(d: Directive)
    requires d.name == "setenv" && !d.inlined && |d.args| >= 2 && d.args[0] == "opt" && d.args[1] !in STRIP_ONLY
    requires Checked(Directive(d.args[1], d.args[2..], d.line, false, "", []))
    ensures Checked(d)
  {
    assert RuleOf(d.name) == Some(Rule(Never, Setenv)) by { hide IsPlain, IsInlineOnly; }
    hide RuleOf;
  }

  // ---- and nothing else is ----

  lemma PlainIsCommon(name: string)
    requires IsPlain(name)
    ensures IsCommon(name)
  {
    if ConnectionOption(name) {
      ConnectionIsCommon(name);
    } else if PersistenceOption(name) || LivenessOption(name) {
      LivenessIsCommon(name);
    } else if CryptoOption(name) {
      CryptoIsCommon(name);
    } else {
      OtherIsCommon(name);
    }
  }

  lemma ConnectionIsCommon(name: string)
    requires ConnectionOption(name)
    ensures name in CONNECTING || name in KEEPING_UP
  {}

  lemma LivenessIsCommon(name: string)
    requires PersistenceOption(name) || LivenessOption(name)
    ensures name in KEEPING_UP
  {}

  lemma CryptoIsCommon(name: string)
    requires CryptoOption(name)
    ensures name in SECURING || name in REKEYING
  {}

  lemma OtherIsCommon(name: string)
    requires SessionOption(name) || RoutingOption(name) || HarmlessOption(name) || name in STRIP_ONLY
    ensures name in LOGGING_IN || name in ROUTING || name in IDLE
  {}

  /** So the allowlist takes exactly the ordinary directives. */
  lemma {:induction false} CheckedIsOrdinary(d: Directive)
    requires Checked(d)
    ensures Ordinary(d)
    decreases |d.args|
  {
    if d.inlined {
      CheckedBlock(d);
    } else if d.name == "setenv" && |d.args| >= 2 && d.args[0] == "opt" {
      var inner := Directive(d.args[1], d.args[2..], d.line, false, "", []);
      SetenvOptIsChecked(d);
      hide Checked, Ordinary;
      CheckedIsOrdinary(inner);
      OrdinaryBehindSetenv(d);
    } else {
      CheckedAloneIsOrdinary(d);
    }
  }

  lemma OrdinaryBehindSetenv(d: Directive)
    requires d.name == "setenv" && !d.inlined && |d.args| >= 2 && d.args[0] == "opt" && d.args[1] !in {"user", "group"}
    requires Ordinary(Directive(d.args[1], d.args[2..], d.line, false, "", []))
    ensures Ordinary(d)
  {
    hide IsCommon, InBounds;
  }

  lemma CheckedBlock(d: Directive)
    requires Checked(d) && d.inlined
    ensures Ordinary(d)
  {
    hide IsPlain;
  }

  lemma CheckedAloneIsOrdinary(d: Directive)
    requires Checked(d) && !d.inlined && !(d.name == "setenv" && |d.args| >= 2 && d.args[0] == "opt")
    ensures IsCommon(d.name) || InBounds(d.name, d.args)
  {
    if IsPlain(d.name) {
      PlainIsCommon(d.name);
    } else if d.name == "setenv" || d.name == "setenv-safe" {
      CheckedVariable(d);
    } else {
      if d.name == "dev" { DeviceIsTun(d.args[0]); }
      hide IsPlain, IsInlineOnly, IsCommon;
    }
  }

  lemma CheckedVariable(d: Directive)
    requires Checked(d) && !d.inlined && !(d.name == "setenv" && |d.args| >= 2 && d.args[0] == "opt")
    requires d.name == "setenv" || d.name == "setenv-safe"
    ensures InBounds(d.name, d.args)
  {
    hide IsPlain, IsInlineOnly, IsCommon, TunName;
  }
}
