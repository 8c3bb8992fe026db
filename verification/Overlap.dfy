// Which new prefixes overlap existing ones (internal/tunnel/conflict.go).
module Overlap {
  import opened Common
  import opened ConfigText
  import opened Numbers

  /** A prefix of the 32- or 128-bit family: the addresses that share its first len bits. */
  datatype Prefix = Prefix(width: nat, base: nat, len: nat)

  /** The bits of an address that a prefix of length len compares. */
  function Masked(p: Prefix, address: nat): int
    requires p.len <= p.width
  {
    address / Pow2(p.width - p.len)
  }

  /** What ParseCIDR gives: a length that fits and a base without host bits. */
  predicate Valid(p: Prefix) {
    p.width in {32, 128} && p.len <= p.width && p.base < Pow2(p.width) && p.base % Pow2(p.width - p.len) == 0
  }

  type Network = p: Prefix | Valid(p) witness Prefix(32, 0, 0)

  /** net.ParseCIDR: the network of a prefix text, its host bits cleared. */
  datatype Net = Net(parseCIDR: string -> Option<Network>)

  /** net.IPNet.Contains, for an address of the given family. */
  predicate Contains(p: Prefix, width: nat, address: nat)
    requires p.len <= p.width
  {
    p.width == width && Masked(p, address) == Masked(p, p.base)
  }

  /** The test the code makes on two networks. */
  predicate Touches(p: Prefix, q: Prefix)
    requires p.len <= p.width && q.len <= q.width
  {
    Contains(p, q.width, q.base) || Contains(q, p.width, p.base)
  }

  /** The networks have an address in common. */
  ghost predicate Share(p: Prefix, q: Prefix)
    requires p.len <= p.width && q.len <= q.width
  {
    p.width == q.width && exists a: nat :: a < Pow2(p.width) && Contains(p, p.width, a) && Contains(q, q.width, a)
  }

  // ---- nested or disjoint ----

  lemma {:induction false} Pow2Adds(m: nat, n: nat)
    ensures Pow2(m + n) == Pow2(m) * Pow2(n)
  {
    if m > 0 {
      Pow2Adds(m - 1, n);
      Pow2Doubles(m - 1);
      Pow2Doubles(m - 1 + n);
      hide Pow2;
      Twice(Pow2(m - 1), Pow2(n));
    }
  }

  lemma Pow2Doubles(m: nat)
    ensures Pow2(m + 1) == 2 * Pow2(m)
  {}

  lemma Twice(a: nat, b: nat)
    ensures 2 * (a * b) == (2 * a) * b
  {}

  lemma DivTwice(a: nat, b: nat, c: nat)
    requires b > 0 && c > 0
    ensures (a / b) / c == a / (b * c)
  {
    var x := a / b;
    var q := x / c;
    Divided(a, b);
    Divided(x, c);
    Distributes(q * c, x % c, b);
    Reorders(q, b, c);
    Monotone(x % c, c - 1, b);
    Distributes(c, -1, b);
    Reorders(1, b, c);
    Positive(b, c);
    QuotientIs(a, b * c, q, (x % c) * b + a % b);
  }

  lemma Divided(a: nat, d: nat)
    requires d > 0
    ensures a == a / d * d + a % d && 0 <= a % d < d && 0 <= a / d
  {}

  lemma Distributes(x: int, y: int, b: int)
    ensures (x + y) * b == x * b + y * b
  {}

  lemma Reorders(q: int, b: int, c: int)
    ensures q * c * b == q * (b * c)
  {}

  lemma Positive(b: nat, c: nat)
    requires b > 0 && c > 0
    ensures b * c > 0
  {}

  lemma Monotone(x: nat, y: nat, b: nat)
    requires x <= y
    ensures x * b <= y * b
  {}

  lemma QuotientIs(a: nat, d: nat, q: nat, r: nat)
    requires d > 0 && a == q * d + r && r < d
    ensures a / d == q
  {
    var q', r' := a / d, a % d;
    assert a == q' * d + r';
    assert (q + 1) * d == q * d + d && (q' + 1) * d == q' * d + d;
    if q' > q {
      Monotone(q + 1, q', d);
    } else if q' < q {
      Monotone(q' + 1, q, d);
    }
  }

  /** An address in the longer prefix q tells of the shorter p what q's base does. */
  lemma LongerDecides(p: Prefix, q: Prefix, a: nat)
    requires p.width == q.width && p.len <= q.len <= q.width && Masked(q, a) == Masked(q, q.base)
    ensures Masked(p, a) == Masked(p, q.base)
  {
    var low, more := q.width - q.len, q.len - p.len;
    Pow2Adds(low, more);
    assert p.width - p.len == low + more;
    DivTwice(a, Pow2(low), Pow2(more));
    DivTwice(q.base, Pow2(low), Pow2(more));
  }

  /** Two networks touch exactly if some address is in both: prefixes are nested or disjoint. */
  lemma TouchesIffShares(p: Prefix, q: Prefix)
    requires Valid(p) && Valid(q)
    ensures Touches(p, q) <==> Share(p, q)
  {
    hide Masked, Pow2;
    if Touches(p, q) {
      var a := if Contains(p, q.width, q.base) then q.base else p.base;
      assert a < Pow2(p.width) && Contains(p, p.width, a) && Contains(q, q.width, a);
    }
    if Share(p, q) {
      var a: nat :| a < Pow2(p.width) && Contains(p, p.width, a) && Contains(q, q.width, a);
      if p.len <= q.len {
        LongerDecides(p, q, a);
      } else {
        LongerDecides(q, p, a);
      }
    }
  }

  // ---- prefix texts ----

  function JoinDots(octets: seq<string>): string
    requires octets != []
  {
    if |octets| == 1 then octets[0] else octets[0] + "." + JoinDots(octets[1..])
  }

  /** Zero octets up to four. */
  function Padded(octets: seq<string>): (r: seq<string>)
    ensures octets <= r && |r| >= 4 && (|octets| >= 4 ==> r == octets)
    ensures forall i | |octets| <= i < |r| :: r[i] == "0"
    decreases 4 - |octets|
  {
    if |octets| >= 4 then octets else Padded(octets + ["0"])
  }

  /** The text of a full prefix: a host's length for a bare address, missing octets filled in. */
  function Normalized(s: string): string {
    var slash := IndexOf(s, '/');
    if slash == |s| then if ':' in s then s + "/128" else s + "/32"
    else
      var ip, mask := s[..slash], s[slash+1..];
      (if ':' in ip then ip else JoinDots(Padded(Split(ip, '.')))) + "/" + mask
  }

  method NormalizeCIDR(s: string) returns (r: string)
    ensures r == Normalized(s)
  {
    var slash := IndexOf(s, '/');
    if slash == |s| {
      if ':' in s {
        return s + "/128";
      }
      return s + "/32";
    }
    var ip, mask := s[..slash], s[slash+1..];
    if ':' !in ip {
      var octets := Split(ip, '.');
      while |octets| < 4
        invariant octets != [] && Padded(octets) == Padded(Split(ip, '.'))
        decreases 4 - |octets|
      {
        octets := octets + ["0"];
      }
      ip := JoinDots(octets);
    }
    return ip + "/" + mask;
  }

  /** A bare address is one host. */
  lemma BareIsHost(s: string)
    requires '/' !in s
    ensures Normalized(s) == if ':' in s then s + "/128" else s + "/32"
  {
    NoIndex(s, '/');
  }

  lemma WithMask(ip: string, mask: string)
    requires '/' !in ip
    ensures Normalized(ip + "/" + mask) == (if ':' in ip then ip else JoinDots(Padded(Split(ip, '.')))) + "/" + mask
  {
    IndexAfter(ip, mask, '/');
    var s := ip + ['/'] + mask;
    assert s[..|ip|] == ip && s[|ip|+1..] == mask && s == ip + "/" + mask;
    hide IndexOf, Split, JoinDots, Padded;
  }

  /** The octets that an IPv4 prefix leaves out are zero. */
  function Zeros(octets: seq<string>): seq<string> {
    if |octets| == 1 then ["0", "0", "0"] else if |octets| == 2 then ["0", "0"] else if |octets| == 3 then ["0"] else []
  }

  lemma PaddedIs(octets: seq<string>)
    requires octets != []
    ensures Padded(octets) == octets + Zeros(octets)
  {
    hide Padded;
    var p := Padded(octets);
    PaddedLength(octets);
    assert p == p[..|octets|] + p[|octets|..];
  }

  lemma PaddedLength(octets: seq<string>)
    requires octets != []
    ensures |Padded(octets)| == if |octets| < 4 then 4 else |octets|
    decreases 4 - |octets|
  {
    if |octets| < 4 { PaddedLength(octets + ["0"]); }
  }

  /** An IPv6 prefix stays, and an IPv4 one gets the octets it leaves out. */
  lemma MaskedIs(ip: string, octets: seq<string>, mask: string)
    requires '/' !in ip && ':' in ip
    requires octets != [] && forall o | o in octets :: '.' !in o && '/' !in o && ':' !in o
    ensures Normalized(ip + "/" + mask) == ip + "/" + mask
    ensures Normalized(JoinDots(octets) + "/" + mask) == JoinDots(octets + Zeros(octets)) + "/" + mask
  {
    DotsSplit(octets);
    NotInDots(octets, '/');
    NotInDots(octets, ':');
    PaddedIs(octets);
    hide Normalized, JoinDots, Split, Padded;
    WithMask(ip, mask);
    WithMask(JoinDots(octets), mask);
  }

  lemma {:induction false} DotsSplit(octets: seq<string>)
    requires octets != [] && forall o | o in octets :: '.' !in o
    ensures Split(JoinDots(octets), '.') == octets
  {
    assert octets[0] in octets && octets == [octets[0]] + octets[1..] && forall o | o in octets[1..] :: o in octets;
    JoinDotsFirst(octets);
    hide *;
    if |octets| == 1 {
      NoIndex(octets[0], '.');
      assert [octets[0]] == octets;
    } else {
      DotsSplit(octets[1..]);
      SplitFirst(octets[0], JoinDots(octets[1..]), '.');
    }
  }

  lemma JoinDotsFirst(octets: seq<string>)
    requires octets != []
    ensures JoinDots(octets) == if |octets| == 1 then octets[0] else octets[0] + ['.'] + JoinDots(octets[1..])
  {
    assert "." == ['.'];
  }

  lemma {:induction false} NotInDots(octets: seq<string>, c: char)
    requires octets != [] && c != '.' && forall o | o in octets :: c !in o
    ensures c !in JoinDots(octets)
  {
    assert octets[0] in octets;
    if |octets| > 1 {
      assert forall o | o in octets[1..] :: o in octets;
      NotInDots(octets[1..], c);
    }
  }

  // ---- the overlaps ----

  /** The parsable network of a text. */
  function NetworkOf(net: Net, s: string): Option<Network> { net.parseCIDR(Normalized(s)) }

  ghost predicate SharesWith(net: Net, s: string, t: string) {
    NetworkOf(net, s).Some? && NetworkOf(net, t).Some? && Share(NetworkOf(net, s).value, NetworkOf(net, t).value)
  }

  /** Some existing prefix has an address in common with s. */
  ghost predicate SharesWithSome(net: Net, s: string, existing: seq<string>) { exists t | t in existing :: SharesWith(net, s, t) }

  /** Each report names a new prefix and an existing one that it shares an address with. */
  datatype Report = Report(added: string, existing: string)

  ghost predicate Reported(reports: seq<Report>, s: string) { exists r | r in reports :: r.added == s }

  ghost predicate Once(reports: seq<Report>) { forall i, j | 0 <= i < j < |reports| :: reports[i].added != reports[j].added }

  lemma SomeMore(net: Net, s: string, existing: seq<string>, t: string)
    ensures SharesWithSome(net, s, existing + [t]) <==> SharesWithSome(net, s, existing) || SharesWith(net, s, t)
  {
    hide SharesWith;
    assert t in existing + [t];
  }

  /** The overlaps of one new prefix: at most its first. */
  method OverlapsOf(net: Net, s: string, existing: seq<string>, seen: bool) returns (r: Option<Report>)
    ensures seen ==> r.None?
    ensures !seen ==> (r.Some? <==> SharesWithSome(net, s, existing))
    ensures r.Some? ==> r.value.added == s && r.value.existing in existing && SharesWith(net, s, r.value.existing)
  {
    hide Touches, Share, Pow2, Normalized;
    r := None;
    var text := NormalizeCIDR(s);
    var p := net.parseCIDR(text);
    if p.None? {
      return;
    }
    for i := 0 to |existing|
      invariant seen ==> r.None?
      invariant !seen ==> (r.Some? <==> SharesWithSome(net, s, existing[..i]))
      invariant r.Some? ==> r.value.added == s && r.value.existing in existing && SharesWith(net, s, r.value.existing)
    {
      assert existing[..i+1] == existing[..i] + [existing[i]];
      SomeMore(net, s, existing[..i], existing[i]);
      var other := NormalizeCIDR(existing[i]);
      var q := net.parseCIDR(other);
      if q.None? {
        continue;
      }
      TouchesIffShares(p.value, q.value);
      if Touches(p.value, q.value) {
        if seen || r.Some? {
          continue;
        }
        r := Some(Report(s, existing[i]));
      }
    }
    assert existing[..|existing|] == existing;
  }

  /** A new prefix is reported, once, exactly if it shares an address with an existing one. */
  method FindOverlaps(net: Net, added: seq<string>, existing: seq<string>) returns (reports: seq<Report>)
    ensures forall s :: Reported(reports, s) <==> s in added && SharesWithSome(net, s, existing)
    ensures Once(reports)
    ensures forall r | r in reports :: r.existing in existing && SharesWith(net, r.added, r.existing)
  {
    reports := [];
    var seen: set<string> := {};
    for i := 0 to |added|
      invariant forall s :: s in seen <==> Reported(reports, s)
      invariant forall s :: Reported(reports, s) <==> s in added[..i] && SharesWithSome(net, s, existing)
      invariant Once(reports)
      invariant forall r | r in reports :: r.existing in existing && SharesWith(net, r.added, r.existing)
    {
      assert added[..i+1] == added[..i] + [added[i]];
      var r := OverlapsOf(net, added[i], existing, added[i] in seen);
      if r.None? {
        continue;
      }
      ReportedMore(reports, r.value);
      reports := reports + [r.value];
      seen := seen + {added[i]};
    }
    assert added[..|added|] == added;
  }

  lemma ReportedMore(reports: seq<Report>, r: Report)
    ensures forall s :: Reported(reports + [r], s) <==> Reported(reports, s) || s == r.added
    ensures Once(reports) && !Reported(reports, r.added) ==> Once(reports + [r])
  {
    forall s ensures Reported(reports + [r], s) <==> Reported(reports, s) || s == r.added {
      assert r in reports + [r];
    }
    if Once(reports) && !Reported(reports, r.added) {
      forall i, j | 0 <= i < j < |reports + [r]| ensures (reports + [r])[i].added != (reports + [r])[j].added {
        assert reports[i] in reports;
      }
    }
  }
}
