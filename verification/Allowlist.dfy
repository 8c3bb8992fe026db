// Which directives of an untrusted profile may reach openvpn
// (internal/ovpn/allowlist.go).
module Allowlist {
  import opened Common
  import opened Numbers
  import opened ProfileReader

  datatype InlineMode = Never | Only | Optional

  /** How a directive's arguments are checked. */
  datatype Check =
    | Anything | NoFile | TunDevice | TunType | OnlyDisable | HttpProxy | SocksProxy | LocalPort | LocalAddress
    | Providers | Setenv | SetenvSafe

  datatype Rule = Rule(inlined: InlineMode, check: Check)

  const INLINE_ONLY := {
    "ca", "cert", "key", "extra-certs", "pkcs12", "crl-verify", "dh", "tls-auth", "tls-crypt", "tls-crypt-v2",
    "http-proxy-user-pass", "connection"}

  // Directives without an inline form, by what they are about.

  predicate ConnectionOption(name: string) {
    name in {
      "client", "tls-client", "pull", "proto", "proto-force", "remote", "remote-random", "remote-random-hostname",
      "resolv-retry", "nobind", "bind", "port", "rport", "float", "connect-retry", "connect-retry-max",
      "connect-timeout", "server-poll-timeout", "explicit-exit-notify", "sndbuf", "rcvbuf", "socket-flags", "fast-io",
      "http-proxy-option", "allow-pull-fqdn"}
  }

  predicate PersistenceOption(name: string) {
    name in {"persist-key", "persist-tun", "persist-remote-ip", "persist-local-ip"}
  }

  predicate CryptoOption(name: string) {
    name in {
      "remote-cert-tls", "remote-cert-ku", "remote-cert-eku", "ns-cert-type", "verify-x509-name", "auth", "cipher",
      "data-ciphers", "data-ciphers-fallback", "ncp-ciphers", "tls-version-min", "tls-version-max", "tls-cipher",
      "tls-ciphersuites", "tls-groups", "ecdh-curve", "tls-cert-profile", "key-direction", "hand-window",
      "tran-window", "tls-timeout", "reneg-sec", "reneg-bytes", "reneg-pkts", "replay-window", "compat-mode",
      "comp-lzo", "compress", "allow-compression"}
  }

  predicate SessionOption(name: string) {
    name in {
      "verb", "mute", "mute-replay-warnings", "auth-nocache", "auth-retry", "static-challenge", "push-peer-info"}
  }

  predicate RoutingOption(name: string) {
    name in {
      "pull-filter", "route", "route-ipv6", "route-nopull", "route-gateway", "route-ipv6-gateway", "route-metric",
      "route-delay", "redirect-gateway", "redirect-private", "block-ipv6", "allow-recursive-routing", "dhcp-option",
      "dns", "topology", "tun-mtu", "tun-mtu-extra", "tun-mtu-max", "mssfix", "fragment", "link-mtu", "mtu-disc"}
  }

  predicate LivenessOption(name: string) {
    name in {"keepalive", "ping", "ping-restart", "ping-exit", "ping-timer-rem", "inactive"}
  }

  predicate HarmlessOption(name: string) {
    name in {
      "tun-ipv6", "disable-occ", "disable-dco", "ignore-unknown-option", "script-security", "route-method",
      "block-outside-dns", "register-dns", "ip-win32", "dhcp-renew", "dhcp-release", "dhcp-pre-release", "tap-sleep"}
  }

  /** Accepted at top level, but removed from what openvpn gets. */
  const STRIP_ONLY := {"user", "group"}

  predicate IsPlain(name: string) {
    || ConnectionOption(name) || PersistenceOption(name) || CryptoOption(name) || SessionOption(name)
    || RoutingOption(name) || LivenessOption(name) || HarmlessOption(name) || name in STRIP_ONLY
  }

  predicate IsInlineOnly(name: string) { name in INLINE_ONLY }

  function RuleOf(name: string): Option<Rule> {
    match name
    case "peer-fingerprint" => Some(Rule(Optional, Anything))
    case "verify-hash" => Some(Rule(Optional, Anything))
    case "auth-user-pass" => Some(Rule(Optional, NoFile))
    case "dev" => Some(Rule(Never, TunDevice))
    case "dev-type" => Some(Rule(Never, TunType))
    case "dns-updown" => Some(Rule(Never, OnlyDisable))
    case "http-proxy" => Some(Rule(Never, HttpProxy))
    case "socks-proxy" => Some(Rule(Never, SocksProxy))
    case "lport" => Some(Rule(Never, LocalPort))
    case "local" => Some(Rule(Never, LocalAddress))
    case "providers" => Some(Rule(Never, Providers))
    case "setenv" => Some(Rule(Never, Setenv))
    case "setenv-safe" => Some(Rule(Never, SetenvSafe))
    case _ =>
      if IsInlineOnly(name) then Some(Rule(Only, Anything))
      else if IsPlain(name) then Some(Rule(Never, Anything))
      else None
  }

  /** A numeric port that is 0 or at least 1024. */
  predicate UnprivilegedPort(s: string) {
    var n := Atoi(s);
    n.Some? && (n.value == 0 || 1024 <= n.value <= 65535)
  }

  /** `^u?tun[0-9]{0,3}$` */
  predicate DeviceName(s: string) {
    var t := if "u" <= s then s[1..] else s;
    "tun" <= t && |t| <= 6 && AllDigits(t[3..])
  }

  /** `^[A-Za-z0-9_]{1,64}$` */
  predicate VariableName(s: string) {
    1 <= |s| <= 64 && forall c | c in s :: IsDigit(c) || 'a' <= c <= 'z' || 'A' <= c <= 'Z' || c == '_'
  }

  const SAFE_VARIABLES := {
    "FORWARD_COMPATIBLE", "PUSH_PEER_INFO", "REMOTE_RANDOM_HOSTNAME", "SERVER_POLL_TIMEOUT", "CLIENT_CERT"}

  predicate ArgumentsOk(check: Check, d: Directive)
    decreases |d.args|, 0
  {
    var a := d.args;
    match check
    case Anything => true
    case NoFile => d.inlined || |a| == 0
    case TunDevice => |a| == 1 && DeviceName(a[0])
    case TunType => a == ["tun"]
    case OnlyDisable => a == ["disable"]
    case HttpProxy =>
      |a| <= 2 || (a[2] in {"auto", "auto-nct"} && |a| <= 3) || (a[2] == "stdin" && |a| <= 4)
    case SocksProxy => (|a| <= 2 || a[2] == "stdin") && |a| <= 3
    case LocalPort => |a| == 1 && UnprivilegedPort(a[0])
    case LocalAddress => |a| < 2 || UnprivilegedPort(a[1])
    case Providers => forall p | p in a :: p in {"legacy", "default", "base"}
    case Setenv =>
      if |a| >= 1 && a[0] == "opt" then
        |a| >= 2 && a[1] !in STRIP_ONLY && Checked(Directive(a[1], a[2..], d.line, false, "", []))
      else 1 <= |a| <= 2 && VariableName(a[0]) && (a[0] in SAFE_VARIABLES || "UV_" <= a[0] || "IV_" <= a[0])
    case SetenvSafe => 1 <= |a| <= 2 && VariableName(a[0])
  }

  /** The allowlist accepts the directive. */
  predicate Checked(d: Directive)
    decreases |d.args|, 1
  {
    var rule := RuleOf(d.name);
    && rule.Some?
    && !(d.inlined && rule.value.inlined.Never?)
    && !(!d.inlined && rule.value.inlined.Only?)
    && ArgumentsOk(rule.value.check, d)
  }

  /** The directive openvpn applies: setenv opt X is X. */
  function Effective(d: Directive): (string, seq<string>) {
    if d.name == "setenv" && |d.args| >= 2 && d.args[0] == "opt" then (d.args[1], d.args[2..]) else (d.name, d.args)
  }

  /** What gets stripped is never an inline block. */
  lemma StripOnlyIsPlain(d: Directive)
    requires Checked(d) && (d.name in STRIP_ONLY || d.name == "persist-remote-ip")
    ensures !d.inlined
  {
    hide IsPlain;
    assert !IsInlineOnly(d.name);
  }

  /** A setenv opt cannot smuggle user or group past the stripping. */
  lemma SetenvOptIsChecked(d: Directive)
    requires Checked(d) && Effective(d) != (d.name, d.args)
    ensures Effective(d).0 !in STRIP_ONLY && Checked(Directive(Effective(d).0, Effective(d).1, d.line, false, "", []))
  {
    hide IsPlain, IsInlineOnly;
  }
}
