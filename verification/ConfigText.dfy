// Text helpers of the configuration reader: trimming, splitting, joining,
// numbers and sorted keys. A char is one code point.
module ConfigText {
  import opened Common
  import opened Numbers

  /** unicode.IsSpace */
  predicate IsSpace(c: char) {
    || '\t' <= c <= '\r' || c == ' ' || c == '\U{85}' || c == '\U{A0}' || c == '\U{1680}'
    || '\U{2000}' <= c <= '\U{200A}' || c == '\U{2028}' || c == '\U{2029}' || c == '\U{202F}'
    || c == '\U{205F}' || c == '\U{3000}'
  }

  predicate AllSpace(s: string) { forall c | c in s :: IsSpace(c) }

  /** Neither end is a space. */
  predicate Trimmed(s: string) { s == "" || (!IsSpace(s[0]) && !IsSpace(s[|s|-1])) }

  function TrimSpace(s: string): (r: string)
    ensures Trimmed(r) && forall c | c in r :: c in s
    decreases |s|
  {
    if s == "" then ""
    else if IsSpace(s[0]) then TrimSpace(s[1..])
    else if IsSpace(s[|s|-1]) then TrimSpace(s[..|s|-1])
    else s
  }

  lemma {:induction false} TrimIs(a: string, core: string, b: string)
    requires AllSpace(a) && AllSpace(b) && Trimmed(core)
    ensures TrimSpace(a + core + b) == core
    decreases |a| + |b|
  {
    var s := a + core + b;
    if a != "" {
      assert s[0] == a[0] && s[1..] == a[1..] + core + b;
      TrimIs(a[1..], core, b);
    } else if b != "" {
      assert s[|s|-1] == b[|b|-1] && s[..|s|-1] == a + core + b[..|b|-1];
      TrimIs(a, core, b[..|b|-1]);
      if core == "" {
        assert s == b && TrimSpace(s) == "" by { SpaceVanishes(b); }
      }
    } else {
      assert s == core;
    }
  }

  lemma {:induction false} SpaceVanishes(s: string)
    requires AllSpace(s)
    ensures TrimSpace(s) == ""
  {
    if s != "" {
      SpaceVanishes(s[1..]);
    }
  }

  // ---- splitting and joining ----

  function IndexOf(s: string, c: char): (i: nat)
    ensures i <= |s| && c !in s[..i] && (i < |s| ==> s[i] == c)
  {
    if s == "" || s[0] == c then 0 else
      assert s[..IndexOf(s[1..], c) + 1] == [s[0]] + s[1..][..IndexOf(s[1..], c)];
      1 + IndexOf(s[1..], c)
  }

  /** strings.Split(s, c) */
  function Split(s: string, c: char): (r: seq<string>)
    ensures r != []
    decreases |s|
  {
    var i := IndexOf(s, c);
    if i == |s| then [s] else [s[..i]] + Split(s[i+1..], c)
  }

  lemma {:induction false} IndexAfter(a: string, rest: string, c: char)
    requires c !in a
    ensures IndexOf(a + [c] + rest, c) == |a|
  {
    var s := a + [c] + rest;
    if a != "" {
      assert s[0] == a[0] && s[1..] == a[1..] + [c] + rest;
      IndexAfter(a[1..], rest, c);
    }
  }

  lemma NoIndex(a: string, c: char)
    requires c !in a
    ensures IndexOf(a, c) == |a| && Split(a, c) == [a]
  {}

  lemma SplitFirst(a: string, rest: string, c: char)
    requires c !in a
    ensures Split(a + [c] + rest, c) == [a] + Split(rest, c)
  {
    var s := a + [c] + rest;
    IndexAfter(a, rest, c);
    assert s[..|a|] == a && s[|a|+1..] == rest;
  }

  /** Splitting what ends with one more piece. */
  lemma {:induction false} SplitLast(s: string, piece: string, c: char)
    requires c !in piece
    ensures Split(s + [c] + piece, c) == Split(s, c) + [piece]
    decreases |s|
  {
    var i := IndexOf(s, c);
    hide IndexOf;
    if i == |s| {
      assert s[..i] == s;
      SplitFirst(s, piece, c);
      NoIndex(piece, c);
    } else {
      var rest := s[i+1..];
      assert s + [c] + piece == s[..i] + [c] + (rest + [c] + piece);
      SplitFirst(s[..i], rest + [c] + piece, c);
      SplitLast(rest, piece, c);
      assert [s[..i]] + (Split(rest, c) + [piece]) == [s[..i]] + Split(rest, c) + [piece];
    }
  }

  /** Every piece is free of the separator and made of the text's characters. */
  lemma {:induction false} SplitPieces(s: string, c: char)
    ensures forall p | p in Split(s, c) :: c !in p && forall d | d in p :: d in s
    decreases |s|
  {
    var i := IndexOf(s, c);
    if i < |s| {
      SplitPieces(s[i+1..], c);
      assert forall d | d in s[i+1..] :: d in s;
    }
  }

  // ---- comma lists ----

  /** Pieces between commas, trimmed, without the empty ones. */
  function TrimAll(pieces: seq<string>): seq<string> {
    if pieces == [] then []
    else
      var p := TrimSpace(pieces[0]);
      (if p != "" then [p] else []) + TrimAll(pieces[1..])
  }

  function SplitAndTrim(s: string): seq<string> { TrimAll(Split(s, ',')) }

  /** strings.Join(list, ", ") */
  function Join(list: seq<string>): string {
    if list == [] then "" else if |list| == 1 then list[0] else list[0] + ", " + Join(list[1..])
  }

  predicate ListItem(v: string) { v != "" && Trimmed(v) && ',' !in v }

  lemma TrimAllFirst(p: string, rest: seq<string>)
    ensures TrimAll([p] + rest) == (if TrimSpace(p) != "" then [TrimSpace(p)] else []) + TrimAll(rest)
  {
    assert ([p] + rest)[1..] == rest;
  }

  /** An item before a comma, perhaps after a space, is the first one read. */
  lemma FirstItem(lead: string, v: string, rest: string)
    requires (lead == "" || lead == " ") && ListItem(v)
    ensures SplitAndTrim(lead + v + [','] + rest) == [v] + SplitAndTrim(rest)
    ensures SplitAndTrim(lead + v) == [v]
  {
    assert lead + v + "" == lead + v;
    TrimIs(lead, v, "");
    assert ',' !in lead + v;
    hide TrimSpace, IndexOf;
    SplitFirst(lead + v, rest, ',');
    TrimAllFirst(lead + v, Split(rest, ','));
    NoIndex(lead + v, ',');
    TrimAllFirst(lead + v, []);
    assert [lead + v] + [] == [lead + v];
  }

  /** Reading a joined list, perhaps after a space, gives the list. */
  lemma {:induction false} JoinSplits(lead: string, list: seq<string>)
    requires (lead == "" || lead == " ") && list != [] && forall v | v in list :: ListItem(v)
    ensures SplitAndTrim(lead + Join(list)) == list
    decreases |list|
  {
    hide SplitAndTrim, ListItem;
    var v, rest := list[0], list[1..];
    assert v in list && forall w | w in rest :: w in list;
    assert list == [v] + rest;
    if rest == [] {
      FirstItem(lead, v, "");
    } else {
      assert lead + Join(list) == lead + v + [','] + (" " + Join(rest)) by { assert ", " == [','] + " "; }
      FirstItem(lead, v, " " + Join(rest));
      JoinSplits(" ", rest);
    }
  }

  lemma {:induction false} TrimAllItems(pieces: seq<string>)
    requires forall p | p in pieces :: ',' !in p
    ensures forall v | v in TrimAll(pieces) :: ListItem(v) && exists p | p in pieces :: v == TrimSpace(p)
  {
    if pieces != [] {
      TrimAllItems(pieces[1..]);
      assert pieces == [pieces[0]] + pieces[1..];
      forall v | v in TrimAll(pieces) ensures ListItem(v) && exists p | p in pieces :: v == TrimSpace(p) {
        if v in TrimAll(pieces[1..]) {
          var p :| p in pieces[1..] && v == TrimSpace(p);
          assert p in pieces;
        } else {
          assert v == TrimSpace(pieces[0]) && pieces[0] in pieces;
        }
      }
    }
  }

  // ---- numbers ----

  function DigitChar(d: nat): char
    requires d < 10
  {
    ('0' as int + d) as char
  }

  /** strconv.Itoa of a non-negative number */
  function Itoa(n: nat): (s: string)
    ensures s != "" && AllDigits(s)
  {
    if n < 10 then [DigitChar(n)] else Itoa(n / 10) + [DigitChar(n % 10)]
  }

  lemma {:induction false} ValueOfItoa(n: nat)
    ensures Value(Itoa(n)) == n
  {
    if n >= 10 {
      ValueOfItoa(n / 10);
      assert Itoa(n)[..|Itoa(n)|-1] == Itoa(n / 10);
    } else {
      assert Itoa(n)[..0] == "";
    }
  }

  lemma AtoiOfItoa(n: nat)
    requires n <= MAX_INT
    ensures Atoi(Itoa(n)) == Some(n)
  {
    ValueOfItoa(n);
    assert Itoa(n)[0] in Itoa(n);
  }

  lemma MinusNumber(n: int)
    requires n >= 0
    ensures Atoi("-" + Itoa(n)).Some? <==> n <= MAX_INT + 1
    ensures Atoi("-" + Itoa(n)).Some? ==> Atoi("-" + Itoa(n)).value == -n
  {
    ValueOfItoa(n);
    hide Itoa, Value;
    assert ("-" + Itoa(n))[1..] == Itoa(n);
  }

  /** A number may have a sign and lies within 64 bits. */
  lemma SignedNumbers(n: int)
    requires n >= 0
    ensures Atoi(Itoa(n)).Some? <==> n <= MAX_INT
    ensures Atoi("+" + Itoa(n)) == Atoi(Itoa(n))
  {
    ValueOfItoa(n);
    assert Itoa(n)[0] in Itoa(n);
    hide Itoa, Value;
    assert ("+" + Itoa(n))[1..] == Itoa(n);
  }

  /** Nothing else is a number. */
  lemma NoNumber(s: string)
    requires s == "" || s == "+" || s == "-" || exists i | 1 <= i < |s| :: !('0' <= s[i] <= '9')
    ensures Atoi(s).None?
  {
    if i :| 1 <= i < |s| && !('0' <= s[i] <= '9') {
      assert s[i] in s && s[1..][i-1] == s[i] && s[1..][i-1] in s[1..];
    }
  }

  // ---- sorted keys ----

  /** Byte order, which for text is code point order. */
  predicate Less(a: string, b: string) {
    if b == "" then false
    else if a == "" then true
    else a[0] < b[0] || (a[0] == b[0] && Less(a[1..], b[1..]))
  }

  /** The first character that differs decides, and what goes on comes later. */
  lemma {:induction false} LessMeans(common: string, c: char, d: char, a: string, b: string)
    requires c != d
    ensures Less(common + [c] + a, common + [d] + b) <==> c < d
    ensures Less(common, common + [c] + a) && !Less(common + [c] + a, common)
  {
    var x, y := common + [c] + a, common + [d] + b;
    if common != "" {
      assert x[0] == common[0] == y[0] && x[1..] == common[1..] + [c] + a && y[1..] == common[1..] + [d] + b;
      LessMeans(common[1..], c, d, a, b);
    }
  }

  lemma {:induction false} LessTotal(a: string, b: string)
    ensures Less(a, b) || Less(b, a) || a == b
    ensures !(Less(a, b) && Less(b, a)) && !Less(a, a)
  {
    if a != "" && b != "" && a[0] == b[0] {
      LessTotal(a[1..], b[1..]);
      assert a == [a[0]] + a[1..] && b == [b[0]] + b[1..];
    }
    if a != "" {
      LessIrreflexive(a);
    }
  }

  lemma {:induction false} LessIrreflexive(a: string)
    ensures !Less(a, a)
  {
    if a != "" {
      LessIrreflexive(a[1..]);
    }
  }

  lemma {:induction false} LessTransitive(a: string, b: string, c: string)
    requires Less(a, b) && Less(b, c)
    ensures Less(a, c)
  {
    if a != "" && a[0] == b[0] && b[0] == c[0] {
      LessTransitive(a[1..], b[1..], c[1..]);
    }
  }

  ghost predicate Ascending(s: seq<string>) { forall i, j | 0 <= i < j < |s| :: Less(s[i], s[j]) }

  /** sort.Strings, one key at a time. */
  function Insert(k: string, s: seq<string>): seq<string> {
    if s == [] then [k] else if Less(s[0], k) then [s[0]] + Insert(k, s[1..]) else [k] + s
  }

  lemma {:induction false} InsertIs(k: string, s: seq<string>)
    requires Ascending(s) && k !in s
    ensures Ascending(Insert(k, s)) && forall x :: x in Insert(k, s) <==> x == k || x in s
  {
    if s != [] {
      var rest := s[1..];
      assert s == [s[0]] + rest && s[0] in s;
      assert forall i, j | 0 <= i < j < |rest| :: rest[i] == s[i+1] && rest[j] == s[j+1];
      assert forall x | x in rest :: Less(s[0], x);
      if Less(s[0], k) {
        InsertIs(k, rest);
        AscendingFrom(s[0], Insert(k, rest));
      } else {
        LessTotal(s[0], k);
        forall x | x in s ensures Less(k, x) {
          if x != s[0] {
            LessTransitive(k, s[0], x);
          }
        }
        AscendingFrom(k, s);
      }
    }
  }

  lemma AscendingFrom(x: string, s: seq<string>)
    requires Ascending(s) && forall y | y in s :: Less(x, y)
    ensures Ascending([x] + s)
  {
    var r := [x] + s;
    forall i, j | 0 <= i < j < |r| ensures Less(r[i], r[j]) {
      assert r[j] == s[j-1] && s[j-1] in s;
      if i > 0 {
        assert r[i] == s[i-1];
      }
    }
  }

  /** There is one ascending arrangement of a set of keys. */
  lemma {:induction false} AscendingUnique(a: seq<string>, b: seq<string>)
    requires Ascending(a) && Ascending(b) && forall x :: x in a <==> x in b
    ensures a == b
    decreases |a|
  {
    if a == [] {
      assert forall i | 0 <= i < |b| :: b[i] in b;
    } else {
      assert a[0] in a && a[0] in b;
      var b0 := b[0];
      assert b0 in b && b0 in a;
      SmallestFirst(a, b0);
      SmallestFirst(b, a[0]);
      LessTotal(a[0], b0);
      TailSet(a);
      TailSet(b);
      AscendingUnique(a[1..], b[1..]);
      assert a == [a[0]] + a[1..] && b == [b0] + b[1..];
    }
  }

  lemma SmallestFirst(a: seq<string>, x: string)
    requires Ascending(a) && x in a
    ensures x == a[0] || Less(a[0], x)
  {}

  lemma TailSet(a: seq<string>)
    requires Ascending(a) && a != []
    ensures Ascending(a[1..]) && forall x :: x in a[1..] <==> x in a && x != a[0]
  {
    forall i, j | 0 <= i < j < |a[1..]| ensures Less(a[1..][i], a[1..][j]) {
      assert a[1..][i] == a[i+1] && a[1..][j] == a[j+1];
    }
    LessIrreflexive(a[0]);
    forall x | x in a && x != a[0] ensures x in a[1..] {
      var i :| 0 <= i < |a| && a[i] == x;
      assert a[1..][i-1] == x;
    }
    assert forall i | 0 <= i < |a[1..]| :: a[1..][i] == a[i+1] && Less(a[0], a[i+1]);
  }

  /** The keys in ascending order, whatever order they come in. */
  ghost function SortedKeys(keys: set<string>): (s: seq<string>)
    ensures Ascending(s) && forall x :: x in s <==> x in keys
    decreases |keys|
  {
    if keys == {} then []
    else
      var k :| k in keys;
      var rest := SortedKeys(keys - {k});
      InsertIs(k, rest);
      Insert(k, rest)
  }

  method SortKeys(keys: set<string>) returns (s: seq<string>)
    ensures s == SortedKeys(keys)
  {
    s := [];
    var todo := keys;
    while todo != {}
      invariant todo <= keys && Ascending(s) && forall x :: x in s <==> x in keys && x !in todo
    {
      var k :| k in todo;
      todo := todo - {k};
      InsertIs(k, s);
      s := Insert(k, s);
    }
    AscendingUnique(s, SortedKeys(keys));
  }
}
