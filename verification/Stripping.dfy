// Blanking a profile's user, group and (with several remotes) persist-remote-ip
// lines leaves the rest of its meaning alone.
module Stripping {
  import opened Common
  import opened Tokenizer
  import opened Allowlist
  import opened ProfileReader
  import opened ProfileLines
  import opened Profile

  // ---- blanking, line by line ----

  /** The lines after blanking; a dropped last line without a newline is gone. */
  function BlankLines(lines: seq<string>, k: nat, drop: set<nat>): seq<string> {
    if lines == [] then []
    else
      var l := if k in drop then Blank(lines[0]) else lines[0];
      (if l == "" then [] else [l]) + BlankLines(lines[1..], k + 1, drop)
  }

  /** The lines of a text; none is empty. */
  function Lines(s: string): (r: seq<string>)
    ensures s == "" <==> r == []
    decreases |s|
  {
    if s == "" then [] else
      var e := LineEnd(s, 0, |s|);
      [s[..e]] + Lines(s[e..])
  }

  // ---- which directives go ----

  /** The lines of the plain directives, those of <connection> blocks included. */
  function PlainLines(ds: seq<Directive>): set<nat>
    decreases ds
  {
    if ds == [] then {}
    else (if ds[0].inlined then {} else {ds[0].line}) + PlainLines(ds[0].children) + PlainLines(ds[1..])
  }

  /** Nothing else in the numbered range is dropped. */
  ghost predicate DropsOnly(drop: set<nat>, from: nat, to: nat, plain: set<nat>) {
    forall l | l in drop && from <= l < to :: l in plain
  }

  /** The directives without those on dropped lines; a <connection> body has those lines blanked. */
  function Prune(ds: seq<Directive>, drop: set<nat>): seq<Directive>
    decreases ds
  {
    if ds == [] then []
    else
      var d := ds[0];
      var kept := if !d.inlined || d.name != "connection" then d
                  else d.(body := Concat(BlankLines(Lines(d.body), d.line + 1, drop)), children := Prune(d.children, drop));
      (if d.line in drop then [] else [kept]) + Prune(ds[1..], drop)
  }

  // ---- where plain directives stand ----

  ghost predicate Between(lines: set<nat>, from: nat, to: nat) { forall l | l in lines :: from <= l < to }

  lemma BodySplit(lines: seq<string>, closeTag: string)
    requires BodyOf(lines, closeTag).Some?
    ensures var b := BodyOf(lines, closeTag).value; |lines| == |b.inside| + 1 + |b.after|
  {}

  lemma PlainFirst(d: Directive, ds: seq<Directive>)
    ensures PlainLines([d] + ds) == (if d.inlined then {} else {d.line}) + PlainLines(d.children) + PlainLines(ds)
    ensures PlainLines([]) == {}
  {
    assert ([d] + ds)[1..] == ds;
  }

  lemma {:induction false} ConnectionBetween(lines: seq<string>, k: nat)
    requires ConnectionLines(lines, k).Ok?
    ensures Between(PlainLines(ConnectionLines(lines, k).value), k, k + |lines|)
    decreases |lines|
  {
    hide Tokens, Closes, CloseTag, InlineTag, ConnectionLines, ConnectionBlockLines, Bare, BodyOf, Concat, PlainLines;
    if lines == [] {
      NoConnection(k);
      PlainFirst(Directive("", [], 0, false, "", []), []);
    } else {
      var p := ConnectionTokens(lines, k);
      ConnectionLinesIs(lines, k, p);
      if OpensBlock(p) {
        ConnectionBlockBetween(lines[1..], k + 1, InlineTag(Bare(p)).value);
      } else {
        ConnectionBetween(lines[1..], k + 1);
        if p != [] { PlainFirst(Plain(p, k), ConnectionLines(lines[1..], k + 1).value); }
      }
    }
  }

  lemma ConnectionBlockBetween(lines: seq<string>, k: nat, tag: string)
    requires k > 0 && ConnectionBlockLines(lines, k, tag).Ok?
    ensures Between(PlainLines(ConnectionBlockLines(lines, k, tag).value), k - 1, k + |lines|)
    decreases |lines|
  {
    hide Tokens, Closes, CloseTag, ConnectionLines, BodyOf, Concat, PlainLines;
    var b := BodyOf(lines, CloseTag(tag)).value;
    var after := k + |b.inside| + 1;
    BodySplit(lines, CloseTag(tag));
    ConnectionBetween(b.after, after);
    PlainFirst(Directive(tag, [], k - 1, true, Concat(b.inside), []), ConnectionLines(b.after, after).value);
  }

  lemma BlockBetween(b: LineBody, tag: string, k: nat)
    requires k > 0 && BlockLines(b, tag, k).Ok?
    ensures Between(PlainLines(BlockLines(b, tag, k).value.children), k, k + |b.inside|)
  {
    hide ConnectionLines;
    if tag == "connection" {
      ConnectionBetween(b.inside, k);
    }
  }

  lemma {:induction false} FileBetween(lines: seq<string>, k: nat)
    requires k > 0 && FileLines(lines, k).Ok?
    ensures Between(PlainLines(FileLines(lines, k).value), k, k + |lines|)
    decreases |lines|
  {
    hide Tokens, Closes, CloseTag, InlineTag, FileLines, FileBlockLines, Bare, BodyOf, Concat, Text, PlainLines;
    if lines == [] {
      NoDirectives(k);
      PlainFirst(Directive("", [], 0, false, "", []), []);
    } else {
      var p := FileTokens(lines, k);
      FileLinesIs(lines, k, p);
      if OpensBlock(p) {
        FileBlockBetween(lines[1..], k + 1, InlineTag(Bare(p)).value);
      } else {
        FileBetween(lines[1..], k + 1);
        if p != [] { PlainFirst(Plain(p, k), FileLines(lines[1..], k + 1).value); }
      }
    }
  }

  lemma FileBlockBetween(lines: seq<string>, k: nat, tag: string)
    requires k > 0 && FileBlockLines(lines, k, tag).Ok?
    ensures Between(PlainLines(FileBlockLines(lines, k, tag).value), k - 1, k + |lines|)
    decreases |lines|
  {
    hide Tokens, Closes, CloseTag, FileLines, BlockLines, BodyOf, Concat, PlainLines;
    var b := BodyOf(lines, CloseTag(tag)).value;
    var after := k + |b.inside| + 1;
    BodySplit(lines, CloseTag(tag));
    BlockBetween(b, tag, k);
    BlockIsInline(b, tag, k);
    FileBetween(b.after, after);
    PlainFirst(BlockLines(b, tag, k).value, FileLines(b.after, after).value);
  }

  lemma BlockIsInline(b: LineBody, tag: string, k: nat)
    requires k > 0 && BlockLines(b, tag, k).Ok?
    ensures var d := BlockLines(b, tag, k).value; d.inlined && d.line == k - 1
  {}

  // ---- reading blanked lines ----

  lemma BlankReadsAsNothing()
    ensures Tokens("") == Ok([]) && Tokens("\n") == Ok([])
    ensures forall first :: Text("\n", first) == "\n"
  {
    assert "\n"[1..] == "";
  }

  lemma BlankClosesNothing(tag: string)
    ensures !Closes("\n", CloseTag(tag)) && !Closes("", CloseTag(tag))
  {
    assert "\n"[1..] == "";
    assert CloseTag(tag)[0] == '<';
  }

  lemma BodyOfBlanked(lines: seq<string>, k: nat, drop: set<nat>, tag: string)
    requires ShortLines(lines) && BodyOf(lines, CloseTag(tag)).Some?
    requires k + |BodyOf(lines, CloseTag(tag)).value.inside| !in drop
    ensures var b := BodyOf(lines, CloseTag(tag)).value;
      BodyOf(BlankLines(lines, k, drop), CloseTag(tag)) ==
      Some(LineBody(BlankLines(b.inside, k, drop), BlankLines(b.after, k + |b.inside| + 1, drop)))
  {
    BlankClosesNothing(tag);
    hide CloseTag;
    BodyBlanks(lines, k, drop, CloseTag(tag));
  }

  lemma {:induction false} BodyBlanks(lines: seq<string>, k: nat, drop: set<nat>, close: string)
    requires ShortLines(lines) && BodyOf(lines, close).Some? && !Closes("\n", close) && !Closes("", close)
    requires k + |BodyOf(lines, close).value.inside| !in drop
    ensures var b := BodyOf(lines, close).value;
      BodyOf(BlankLines(lines, k, drop), close) == Some(LineBody(BlankLines(b.inside, k, drop), BlankLines(b.after, k + |b.inside| + 1, drop)))
    decreases |lines|
  {
    hide *;
    BodyUnfolds(lines, close);
    if Closes(lines[0], close) {
      BlankKeeps(lines, k, drop);
      BodyCloses(lines[0], BlankLines(lines[1..], k + 1, drop), close);
      NoneBlanked(k, drop);
    } else {
      var b := BodyOf(lines[1..], close).value;
      BlankInside(lines, k, drop);
      BlankGoes(lines[0], k, drop, close);
      BodyBlanks(lines[1..], k + 1, drop, close);
      BlankCons(lines[0], b.inside, k, drop);
      BodyGoes(BlankedLine(lines[0], k, drop), BlankLines(lines[1..], k + 1, drop), close);
    }
  }

  lemma NoneBlanked(k: nat, drop: set<nat>)
    ensures BlankLines([], k, drop) == []
  {}

  lemma BlankKeeps(lines: seq<string>, k: nat, drop: set<nat>)
    requires ShortLines(lines) && lines != [] && k !in drop
    ensures BlankLines(lines, k, drop) == [lines[0]] + BlankLines(lines[1..], k + 1, drop)
  {}

  lemma BodyCloses(l: string, rest: seq<string>, close: string)
    requires Closes(l, close)
    ensures BodyOf([l] + rest, close) == Some(LineBody([], rest))
  {
    assert ([l] + rest)[1..] == rest;
  }

  lemma BodyGoes(l: string, rest: seq<string>, close: string)
    requires !Closes(l, close) && BodyOf(rest, close).Some?
    ensures BodyOf([l] + rest, close) == Some(LineBody([l] + BodyOf(rest, close).value.inside, BodyOf(rest, close).value.after))
  {
    assert ([l] + rest)[1..] == rest;
  }

  function BlankedLine(l: string, k: nat, drop: set<nat>): string { if k in drop then Blank(l) else l }

  lemma BodyUnfolds(lines: seq<string>, close: string)
    requires BodyOf(lines, close).Some?
    ensures lines != []
    ensures if Closes(lines[0], close) then BodyOf(lines, close).value == LineBody([], lines[1..])
            else
              && lines[1..] != [] && BodyOf(lines[1..], close).Some?
              && var b := BodyOf(lines[1..], close).value; BodyOf(lines, close).value == LineBody([lines[0]] + b.inside, b.after)
  {
    hide Closes;
  }

  lemma BlankInside(lines: seq<string>, k: nat, drop: set<nat>)
    requires ShortLines(lines) && lines != [] && lines[1..] != []
    ensures ShortLines(lines[1..]) && BlankedLine(lines[0], k, drop) != ""
    ensures BlankLines(lines, k, drop) == [BlankedLine(lines[0], k, drop)] + BlankLines(lines[1..], k + 1, drop)
  {}

  lemma BlankGoes(l: string, k: nat, drop: set<nat>, close: string)
    requires !Closes(l, close) && !Closes("\n", close) && !Closes("", close)
    ensures !Closes(BlankedLine(l, k, drop), close)
  {
    hide Closes;
  }

  lemma BlankCons(l: string, rest: seq<string>, k: nat, drop: set<nat>)
    requires BlankedLine(l, k, drop) != ""
    ensures BlankLines([l] + rest, k, drop) == [BlankedLine(l, k, drop)] + BlankLines(rest, k + 1, drop)
  {
    assert ([l] + rest)[1..] == rest;
  }

  lemma {:induction false} BlankedStillEnded(lines: seq<string>, k: nat, drop: set<nat>)
    requires AllEnded(lines)
    ensures |BlankLines(lines, k, drop)| == |lines|
  {
    if lines != [] {
      BlankedStillEnded(lines[1..], k + 1, drop);
    }
  }

  lemma {:induction false} NothingDropped(lines: seq<string>, k: nat, drop: set<nat>)
    requires ShortLines(lines) && DropsOnly(drop, k, k + |lines|, {})
    ensures BlankLines(lines, k, drop) == lines
  {
    if lines != [] {
      assert k !in drop;
      NothingDropped(lines[1..], k + 1, drop);
    }
  }

  /** The first line after blanking and the rest. */
  lemma BlankFirst(lines: seq<string>, k: nat, drop: set<nat>)
    requires ShortLines(lines) && lines != []
    ensures var l, rest := if k in drop then Blank(lines[0]) else lines[0], BlankLines(lines[1..], k + 1, drop);
      BlankLines(lines, k, drop) == (if l == "" then rest else [l] + rest) && (l == "" ==> rest == [])
  {
    var l := if k in drop then Blank(lines[0]) else lines[0];
    if l == "" {
      assert lines[1..] == [];
    }
  }

  // ---- parsing what is left ----

  predicate OpensBlock(p: seq<string>) { p != [] && InlineTag(Bare(p)).Some? }

  lemma ConnectionLinesIs(lines: seq<string>, k: nat, p: seq<string>)
    requires lines != [] && Tokens(Content(lines[0])) == Ok(p)
    ensures ConnectionLines(lines, k) ==
            if p == [] then ConnectionLines(lines[1..], k + 1)
            else if !OpensBlock(p) then Prepend(Plain(p, k), ConnectionLines(lines[1..], k + 1))
            else ConnectionBlockLines(lines[1..], k + 1, InlineTag(Bare(p)).value)
  {
    ConnectionLinesUnfold(lines, k);
    hide ConnectionLines, Tokens, InlineTag, Bare, Plain, ConnectionBlockLines, Prepend;
  }

  lemma ConnectionTokens(lines: seq<string>, k: nat) returns (p: seq<string>)
    requires lines != [] && ConnectionLines(lines, k).Ok?
    ensures Tokens(Content(lines[0])) == Ok(p)
  {
    p := Tokens(Content(lines[0])).value;
  }

  lemma PruneFirst(d: Directive, ds: seq<Directive>, drop: set<nat>)
    ensures ([d] + ds)[1..] == ds
    ensures PlainLines([d] + ds) == (if d.inlined then {} else {d.line}) + PlainLines(d.children) + PlainLines(ds)
    ensures d.line in drop ==> Prune([d] + ds, drop) == Prune(ds, drop)
    ensures d.line !in drop && !(d.inlined && d.name == "connection") ==> Prune([d] + ds, drop) == [d] + Prune(ds, drop)
  {
    assert ([d] + ds)[1..] == ds;
  }

  lemma ConnectionPrunesBlock(lines: seq<string>, k: nat, drop: set<nat>, tag: string)
    requires ShortLines(lines) && AllEnded(lines) && k > 0 && ConnectionBlockLines(lines, k, tag).Ok?
    requires DropsOnly(drop, k - 1, k + |lines|, PlainLines(ConnectionBlockLines(lines, k, tag).value))
    ensures k - 1 !in drop
    ensures ConnectionBlockLines(BlankLines(lines, k, drop), k, tag) ==
            Ok(Prune(ConnectionBlockLines(lines, k, tag).value, drop))
    decreases |lines|, 2
  {
    hide Tokens, Closes, CloseTag, InlineTag, ConnectionLines, ShortLines, AllEnded, Prune, PlainLines, BlankLines, BodyOf, Concat;
    var close := CloseTag(tag);
    var b := BodyOf(lines, close).value;
    var after := k + |b.inside| + 1;
    BodyShort(lines, close);
    BodySplit(lines, close);
    var tail := ConnectionLines(b.after, after).value;
    ConnectionBetween(b.after, after);
    var d := Directive(tag, [], k - 1, true, Concat(b.inside), []);
    NoChildren();
    PruneFirst(d, tail, drop);
    assert k - 1 !in drop;
    BodyOfBlanked(lines, k, drop, tag);
    NothingDropped(b.inside, k, drop);
    ConnectionPrunes(b.after, after, drop);
  }

  lemma NoChildren()
    ensures PlainLines([]) == {}
  {}

  lemma {:induction false} ConnectionPrunes(lines: seq<string>, k: nat, drop: set<nat>)
    requires ShortLines(lines) && AllEnded(lines) && ConnectionLines(lines, k).Ok?
    requires DropsOnly(drop, k, k + |lines|, PlainLines(ConnectionLines(lines, k).value))
    ensures ConnectionLines(BlankLines(lines, k, drop), k) == Ok(Prune(ConnectionLines(lines, k).value, drop))
    decreases |lines|, 1
  {
    if lines != [] {
      ConnectionPrunesStep(lines, k, drop);
    }
  }

  lemma ConnectionPrunesStep(lines: seq<string>, k: nat, drop: set<nat>)
    requires ShortLines(lines) && AllEnded(lines) && ConnectionLines(lines, k).Ok? && lines != []
    requires DropsOnly(drop, k, k + |lines|, PlainLines(ConnectionLines(lines, k).value))
    ensures ConnectionLines(BlankLines(lines, k, drop), k) == Ok(Prune(ConnectionLines(lines, k).value, drop))
    decreases |lines|, 0
  {
    hide Tokens, Closes, InlineTag, ConnectionLines, Prune, PlainLines, BlankLines, ConnectionBlockLines, Bare;
    var rest := lines[1..];
    var blanked := BlankLines(lines, k, drop);
    BlankReadsAsNothing();
    BlankFirst(lines, k, drop);
    assert blanked[1..] == BlankLines(rest, k + 1, drop);
    var p := ConnectionTokens(lines, k);
    ConnectionLinesIs(lines, k, p);
    if p == [] {
      ConnectionBetween(rest, k + 1);
      ConnectionPrunes(rest, k + 1, drop);
      ConnectionLinesIs(blanked, k, p);
    } else if !OpensBlock(p) {
      var tail := ConnectionLines(rest, k + 1).value;
      NoChildren();
      PruneFirst(Plain(p, k), tail, drop);
      ConnectionPrunes(rest, k + 1, drop);
      ConnectionLinesIs(blanked, k, if k in drop then [] else p);
    } else {
      ConnectionPrunesBlock(rest, k + 1, drop, InlineTag(Bare(p)).value);
      ConnectionLinesIs(blanked, k, p);
    }
  }

  lemma {:induction false} LinesOfConcat(lines: seq<string>)
    requires ShortLines(lines)
    ensures Lines(Concat(lines)) == lines
  {
    if lines != [] {
      ConcatUnfolds(lines);
      hide *;
      LineFirst(lines[0], Concat(lines[1..]));
      LinesOfConcat(lines[1..]);
      assert lines == [lines[0]] + lines[1..];
    }
  }

  lemma ConcatUnfolds(lines: seq<string>)
    requires ShortLines(lines) && lines != []
    ensures Concat(lines) == lines[0] + Concat(lines[1..]) && ShortLines(lines[1..])
    ensures IsLine(lines[0]) && (Ended(lines[0]) || Concat(lines[1..]) == "")
  {
    assert !Ended(lines[0]) ==> lines[1..] == [];
  }

  lemma LineFirst(l: string, rest: string)
    requires IsLine(l) && (Ended(l) || rest == "")
    ensures Lines(l + rest) == [l] + Lines(rest)
  {
    var text := l + rest;
    assert text[..|l|] == l && text[|l|..] == rest && text[0..|l|] == l;
    LineEndAt(text, 0, 0, |text|, l);
  }

  lemma FileLinesIs(lines: seq<string>, k: nat, p: seq<string>)
    requires k > 0 && lines != [] && Tokens(Text(lines[0], k == 1)) == Ok(p)
    ensures FileLines(lines, k) ==
            if p == [] then FileLines(lines[1..], k + 1)
            else if !OpensBlock(p) then Prepend(Plain(p, k), FileLines(lines[1..], k + 1))
            else FileBlockLines(lines[1..], k + 1, InlineTag(Bare(p)).value)
  {
    hide Tokens, InlineTag, Text;
  }

  lemma FileTokens(lines: seq<string>, k: nat) returns (p: seq<string>)
    requires k > 0 && lines != [] && FileLines(lines, k).Ok?
    ensures Tokens(Text(lines[0], k == 1)) == Ok(p)
  {
    p := Tokens(Text(lines[0], k == 1)).value;
  }

  /** A block whose inside is blanked becomes the pruned block. */
  lemma BlockPrunes(b: LineBody, tag: string, k: nat, drop: set<nat>, after: seq<string>)
    requires k > 0 && BlockLines(b, tag, k).Ok? && ShortLines(b.inside) && AllEnded(b.inside) && k - 1 !in drop
    requires DropsOnly(drop, k, k + |b.inside|, PlainLines(BlockLines(b, tag, k).value.children))
    ensures var blanked := LineBody(BlankLines(b.inside, k, drop), after);
      && BlockLines(blanked, tag, k).Ok?
      && |blanked.inside| == |b.inside|
      && Prune([BlockLines(b, tag, k).value], drop) == [BlockLines(blanked, tag, k).value]
  {
    hide Tokens, Closes, ConnectionLines, BlankLines, PlainLines, Concat, ShortLines, AllEnded, Lines;
    BlankedStillEnded(b.inside, k, drop);
    if tag == "connection" {
      ConnectionPrunes(b.inside, k, drop);
      LinesOfConcat(b.inside);
    } else {
      NoChildren();
      NothingDropped(b.inside, k, drop);
    }
    assert [BlockLines(b, tag, k).value][1..] == [];
  }

  lemma {:induction false} PruneConcat(a: seq<Directive>, b: seq<Directive>, drop: set<nat>)
    ensures Prune(a + b, drop) == Prune(a, drop) + Prune(b, drop)
  {
    hide Prune, PrunedOne;
    if a == [] {
      NothingPruned(false, drop);
      assert a + b == b && [] + Prune(b, drop) == Prune(b, drop);
    } else {
      PruneIs(a, drop);
      PruneIs(a + b, drop);
      assert (a + b)[0] == a[0] && (a + b)[1..] == a[1..] + b;
      PruneConcat(a[1..], b, drop);
    }
  }

  lemma FilePrunesBlock(lines: seq<string>, k: nat, drop: set<nat>, tag: string)
    requires ShortLines(lines) && k > 1 && FileBlockLines(lines, k, tag).Ok?
    requires DropsOnly(drop, k - 1, k + |lines|, PlainLines(FileBlockLines(lines, k, tag).value))
    ensures k - 1 !in drop
    ensures FileBlockLines(BlankLines(lines, k, drop), k, tag) == Ok(Prune(FileBlockLines(lines, k, tag).value, drop))
    decreases |lines|, 2
  {
    hide Tokens, Closes, CloseTag, InlineTag, FileLines, ShortLines, AllEnded, Prune, PlainLines, BlankLines, BodyOf,
         BlockLines, ConnectionLines;
    var b := BodyOf(lines, CloseTag(tag)).value;
    var after := k + |b.inside| + 1;
    BodyShort(lines, CloseTag(tag));
    BodySplit(lines, CloseTag(tag));
    var d, tail := BlockLines(b, tag, k).value, FileLines(b.after, after).value;
    FileBetween(b.after, after);
    BlockBetween(b, tag, k);
    BlockIsInline(b, tag, k);
    PruneFirst(d, tail, drop);
    assert k - 1 !in drop;
    BodyOfBlanked(lines, k, drop, tag);
    BlockPrunes(b, tag, k, drop, BlankLines(b.after, after, drop));
    FilePrunes(b.after, after, drop);
    PruneConcat([d], tail, drop);
  }

  lemma {:induction false} FilePrunes(lines: seq<string>, k: nat, drop: set<nat>)
    requires ShortLines(lines) && k > 0 && FileLines(lines, k).Ok?
    requires DropsOnly(drop, k, k + |lines|, PlainLines(FileLines(lines, k).value))
    ensures FileLines(BlankLines(lines, k, drop), k) == Ok(Prune(FileLines(lines, k).value, drop))
    decreases |lines|, 1
  {
    if lines != [] {
      FilePrunesStep(lines, k, drop);
    }
  }

  lemma FilePrunesStep(lines: seq<string>, k: nat, drop: set<nat>)
    requires ShortLines(lines) && k > 0 && FileLines(lines, k).Ok? && lines != []
    requires DropsOnly(drop, k, k + |lines|, PlainLines(FileLines(lines, k).value))
    ensures FileLines(BlankLines(lines, k, drop), k) == Ok(Prune(FileLines(lines, k).value, drop))
    decreases |lines|, 0
  {
    hide Tokens, Closes, InlineTag, FileLines, Prune, PlainLines, BlankLines, FileBlockLines, Bare, Text;
    var rest := lines[1..];
    var blanked := BlankLines(lines, k, drop);
    BlankReadsAsNothing();
    BlankFirst(lines, k, drop);
    var p := FileTokens(lines, k);
    FileLinesIs(lines, k, p);
    NoDirectives(k);
    if p == [] {
      FileBetween(rest, k + 1);
      FilePrunes(rest, k + 1, drop);
      assert blanked[1..] == BlankLines(rest, k + 1, drop);
      FileLinesIs(blanked, k, p);
    } else if !OpensBlock(p) {
      var tail := FileLines(rest, k + 1).value;
      NoChildren();
      PruneFirst(Plain(p, k), tail, drop);
      FilePrunes(rest, k + 1, drop);
      if blanked != [] {
        assert blanked[1..] == BlankLines(rest, k + 1, drop);
        FileLinesIs(blanked, k, if k in drop then [] else p);
      }
    } else {
      FilePrunesBlock(rest, k + 1, drop, InlineTag(Bare(p)).value);
      assert blanked[1..] == BlankLines(rest, k + 1, drop);
      FileLinesIs(blanked, k, p);
    }
  }

  lemma NoDirectives(k: nat)
    requires k > 0
    ensures FileLines([], k) == Ok([]) && FileLines([], k + 1) == Ok([])
  {}

  // ---- directives stand on different lines ----

  /** The visits' line numbers ascend within the range. */
  ghost predicate Ascends(w: seq<Visit>, from: nat, to: nat) {
    && (forall v | v in w :: from <= v.d.line < to)
    && (forall i, j | 0 <= i < j < |w| :: w[i].d.line < w[j].d.line)
  }

  lemma AscendsConcat(a: seq<Visit>, b: seq<Visit>, from: nat, mid: nat, to: nat)
    requires Ascends(a, from, mid) && Ascends(b, mid, to) && from <= mid <= to
    ensures Ascends(a + b, from, to)
  {
    forall i, j | 0 <= i < j < |a + b| ensures (a + b)[i].d.line < (a + b)[j].d.line {
      assert i < |a| ==> a[i] in a;
      assert j >= |a| ==> b[j - |a|] in b;
    }
  }

  lemma NestedFirst(d: Directive, ds: seq<Directive>)
    ensures Nested([d] + ds) == [Visit(d, false)] + Nested(ds)
  {}

  lemma WalkFirst(d: Directive, ds: seq<Directive>)
    ensures Walk([d] + ds) == [Visit(d, true)] + Nested(d.children) + Walk(ds)
  {
    assert ([d] + ds)[1..] == ds;
  }

  lemma {:induction false} ConnectionAscends(lines: seq<string>, k: nat)
    requires ConnectionLines(lines, k).Ok?
    ensures Ascends(Nested(ConnectionLines(lines, k).value), k, k + |lines|)
    decreases |lines|
  {
    hide Tokens, Closes, CloseTag, InlineTag, ConnectionLines, ConnectionBlockLines, Bare, BodyOf, Concat;
    if lines == [] {
      NoConnection(k);
    } else {
      var p := ConnectionTokens(lines, k);
      ConnectionLinesIs(lines, k, p);
      if !OpensBlock(p) {
        var tail := ConnectionLines(lines[1..], k + 1);
        ConnectionAscends(lines[1..], k + 1);
        if p != [] {
          NestedFirst(Plain(p, k), tail.value);
          AscendsConcat([Visit(Plain(p, k), false)], Nested(tail.value), k, k + 1, k + |lines|);
        }
      } else {
        ConnectionBlockAscends(lines[1..], k + 1, InlineTag(Bare(p)).value);
      }
    }
  }

  lemma NoConnection(k: nat)
    ensures ConnectionLines([], k) == Ok([])
  {}

  lemma ConnectionBlockAscends(lines: seq<string>, k: nat, tag: string)
    requires k > 0 && ConnectionBlockLines(lines, k, tag).Ok?
    ensures Ascends(Nested(ConnectionBlockLines(lines, k, tag).value), k - 1, k + |lines|)
    decreases |lines|
  {
    hide Tokens, Closes, CloseTag, ConnectionLines, BodyOf, Concat;
    var b := BodyOf(lines, CloseTag(tag)).value;
    var after := k + |b.inside| + 1;
    BodySplit(lines, CloseTag(tag));
    ConnectionAscends(b.after, after);
    var d, tail := Directive(tag, [], k - 1, true, Concat(b.inside), []), ConnectionLines(b.after, after).value;
    NestedFirst(d, tail);
    AscendsConcat([Visit(d, false)], Nested(tail), k - 1, after, k + |lines|);
  }

  lemma {:induction false} FileAscends(lines: seq<string>, k: nat)
    requires k > 0 && FileLines(lines, k).Ok?
    ensures Ascends(Walk(FileLines(lines, k).value), k, k + |lines|)
    decreases |lines|
  {
    hide Tokens, Closes, CloseTag, InlineTag, FileLines, FileBlockLines, Bare, BodyOf, Concat, Text;
    if lines == [] {
      NoDirectives(k);
    } else {
      var p := FileTokens(lines, k);
      FileLinesIs(lines, k, p);
      if !OpensBlock(p) {
        var tail := FileLines(lines[1..], k + 1);
        FileAscends(lines[1..], k + 1);
        if p != [] {
          WalkFirst(Plain(p, k), tail.value);
          AscendsConcat([Visit(Plain(p, k), true)] + Nested([]), Walk(tail.value), k, k + 1, k + |lines|);
        }
      } else {
        FileBlockAscends(lines[1..], k + 1, InlineTag(Bare(p)).value);
      }
    }
  }

  lemma BlockAscends(b: LineBody, tag: string, k: nat)
    requires k > 0 && BlockLines(b, tag, k).Ok?
    ensures var d := BlockLines(b, tag, k).value;
      Ascends([Visit(d, true)] + Nested(d.children), k - 1, k + |b.inside|)
  {
    hide ConnectionLines, Concat;
    var d := BlockLines(b, tag, k).value;
    if tag == "connection" {
      ConnectionAscends(b.inside, k);
    }
    AscendsConcat([Visit(d, true)], Nested(d.children), k - 1, k, k + |b.inside|);
  }

  lemma FileBlockAscends(lines: seq<string>, k: nat, tag: string)
    requires k > 1 && FileBlockLines(lines, k, tag).Ok?
    ensures Ascends(Walk(FileBlockLines(lines, k, tag).value), k - 1, k + |lines|)
    decreases |lines|
  {
    hide Tokens, Closes, CloseTag, FileLines, BodyOf, BlockLines, Ascends, Walk, Nested;
    var b := BodyOf(lines, CloseTag(tag)).value;
    var after := k + |b.inside| + 1;
    BodySplit(lines, CloseTag(tag));
    FileAscends(b.after, after);
    BlockAscends(b, tag, k);
    var d, tail := BlockLines(b, tag, k).value, FileLines(b.after, after).value;
    WalkFirst(d, tail);
    WidensTo([Visit(d, true)] + Nested(d.children), k - 1, k + |b.inside|, after);
    AscendsConcat([Visit(d, true)] + Nested(d.children), Walk(tail), k - 1, after, k + |lines|);
  }

  lemma WidensTo(w: seq<Visit>, from: nat, to: nat, further: nat)
    requires Ascends(w, from, to) && to <= further
    ensures Ascends(w, from, further)
  {}

  // ---- what is stripped ----

  /** user and group; and persist-remote-ip, also behind setenv opt, when there are several remotes. */
  predicate Stripped(d: Directive, several: bool) {
    d.name in STRIP_ONLY || (several && !d.inlined && Effective(d).0 == "persist-remote-ip")
  }

  /** The directives that are not stripped; a <connection> body has the lines of its stripped ones blanked. */
  function Kept(ds: seq<Directive>, several: bool, drop: set<nat>): seq<Directive>
    decreases ds
  {
    if ds == [] then []
    else
      var d := ds[0];
      var kept := if !d.inlined || d.name != "connection" then d
                  else d.(body := Concat(BlankLines(Lines(d.body), d.line + 1, drop)), children := Kept(d.children, several, drop));
      (if Stripped(d, several) then [] else [kept]) + Kept(ds[1..], several, drop)
  }

  /** The dropped lines are those of the stripped visits. */
  ghost predicate DropsStripped(w: seq<Visit>, drop: set<nat>, several: bool) {
    forall v | v in w :: v.d.line in drop <==> Stripped(v.d, several)
  }

  /** What a directive whose line is not dropped becomes. */
  function PrunedOne(d: Directive, drop: set<nat>): Directive {
    if !d.inlined || d.name != "connection" then d
    else d.(body := Concat(BlankLines(Lines(d.body), d.line + 1, drop)), children := Prune(d.children, drop))
  }

  lemma PruneIs(ds: seq<Directive>, drop: set<nat>)
    requires ds != []
    ensures Prune(ds, drop) == (if ds[0].line in drop then [] else [PrunedOne(ds[0], drop)]) + Prune(ds[1..], drop)
  {
    hide BlankLines, Concat, Lines;
  }

  lemma PrunedIsKept(d: Directive, drop: set<nat>, several: bool)
    requires Prune(d.children, drop) == Kept(d.children, several, drop)
    ensures PrunedOne(d, drop) == KeptOne(d, several, drop)
  {
    hide Prune, Kept, BlankLines, Concat, Lines;
  }

  lemma NothingPruned(several: bool, drop: set<nat>)
    ensures Prune([], drop) == [] && Kept([], several, drop) == []
  {}

  lemma {:induction false} PruneNestedIsKept(ds: seq<Directive>, drop: set<nat>, several: bool)
    requires DropsStripped(Nested(ds), drop, several) && forall d | d in ds :: d.children == []
    ensures Prune(ds, drop) == Kept(ds, several, drop)
  {
    hide Stripped, Prune, Kept, PrunedOne, KeptOne, Nested;
    NothingPruned(several, drop);
    if ds != [] {
      var d := ds[0];
      assert ds == [d] + ds[1..] && d in ds;
      NestedFirst(d, ds[1..]);
      assert Visit(d, false) in Nested(ds) && forall v | v in Nested(ds[1..]) :: v in Nested(ds);
      PruneIs(ds, drop);
      KeptIs(ds, several, drop);
      PrunedIsKept(d, drop, several);
      PruneNestedIsKept(ds[1..], drop, several);
    }
  }

  predicate Childless(ds: seq<Directive>) { forall c | c in ds :: c.children == [] }

  /** Only blocks have children, and those have none. */
  ghost predicate Flat(ds: seq<Directive>) {
    forall d | d in ds :: Childless(d.children) && (d.children != [] ==> d.inlined && d.name == "connection")
  }

  lemma {:induction false} PruneIsKept(ds: seq<Directive>, drop: set<nat>, several: bool)
    requires DropsStripped(Walk(ds), drop, several) && Flat(ds)
    ensures Prune(ds, drop) == Kept(ds, several, drop)
  {
    hide Stripped, Prune, Kept, PrunedOne, KeptOne, Nested, Walk;
    NothingPruned(several, drop);
    if ds != [] {
      var d := ds[0];
      assert ds == [d] + ds[1..] && d in ds;
      WalkFirst(d, ds[1..]);
      assert Visit(d, true) in Walk(ds) && forall v | v in Nested(d.children) || v in Walk(ds[1..]) :: v in Walk(ds);
      PruneIs(ds, drop);
      KeptIs(ds, several, drop);
      PruneNestedIsKept(d.children, drop, several);
      PrunedIsKept(d, drop, several);
      PruneIsKept(ds[1..], drop, several);
    }
  }

  lemma {:induction false} ConnectionChildless(lines: seq<string>, k: nat)
    requires ConnectionLines(lines, k).Ok?
    ensures Childless(ConnectionLines(lines, k).value)
    decreases |lines|
  {
    hide Tokens, Closes, CloseTag, InlineTag, ConnectionLines, Bare, Concat;
    if lines == [] {
      NoConnection(k);
    } else {
      var p := ConnectionTokens(lines, k);
      ConnectionLinesIs(lines, k, p);
      if !OpensBlock(p) {
        ConnectionChildless(lines[1..], k + 1);
      } else {
        var b := BodyOf(lines[1..], CloseTag(InlineTag(Bare(p)).value)).value;
        ConnectionChildless(b.after, k + |b.inside| + 2);
      }
    }
  }

  lemma {:induction false} FileFlat(lines: seq<string>, k: nat)
    requires k > 0 && FileLines(lines, k).Ok?
    ensures Flat(FileLines(lines, k).value)
    decreases |lines|
  {
    hide Tokens, Closes, CloseTag, InlineTag, FileLines, Bare, Concat, ConnectionLines, Text;
    if lines == [] {
      NoDirectives(k);
    } else {
      var p := FileTokens(lines, k);
      FileLinesIs(lines, k, p);
      if !OpensBlock(p) {
        FileFlat(lines[1..], k + 1);
      } else {
        var tag := InlineTag(Bare(p)).value;
        var b := BodyOf(lines[1..], CloseTag(tag)).value;
        FileFlat(b.after, k + |b.inside| + 2);
        if tag == "connection" {
          ConnectionChildless(b.inside, k + 1);
        }
      }
    }
  }

  // ---- the dropped lines ----

  predicate Strips(v: Visit, several: bool) {
    v.d.name in STRIP_ONLY || (several && Sets(v, "persist-remote-ip"))
  }

  lemma {:induction false} FactsCollect(w: seq<Visit>)
    ensures forall l :: l in FactsOf(w).strip <==> exists v :: v in w && v.d.name in STRIP_ONLY && v.d.line == l
    ensures forall l :: l in FactsOf(w).persist <==> exists v :: v in w && Sets(v, "persist-remote-ip") && v.d.line == l
  {
    hide Effective, ForcesBind, LowPort;
    if w != [] {
      FactsCollect(w[..|w|-1]);
      assert w == w[..|w|-1] + [w[|w|-1]];
    }
  }

  function DropOf(ds: seq<Directive>): set<nat> { set l | l in StripLines(ds) }

  lemma DropIs(ds: seq<Directive>, l: nat)
    ensures l in DropOf(ds) <==> exists v :: v in Walk(ds) && Strips(v, |Remotes(ds)| > 1) && v.d.line == l
  {
    FactsCollect(Walk(ds));
  }

  /** No two visits share a line, so a line is dropped exactly if its visit is stripped. */
  lemma DropMatches(ds: seq<Directive>, from: nat, to: nat)
    requires Ascends(Walk(ds), from, to)
    ensures DropsStripped(Walk(ds), DropOf(ds), |Remotes(ds)| > 1)
  {
    hide Remotes, Effective, StripLines, DropOf;
    var w := Walk(ds);
    forall v | v in w ensures v.d.line in DropOf(ds) <==> Stripped(v.d, |Remotes(ds)| > 1) {
      DropIs(ds, v.d.line);
      if v.d.line in DropOf(ds) {
        var u :| u in w && Strips(u, |Remotes(ds)| > 1) && u.d.line == v.d.line;
        var i :| 0 <= i < |w| && w[i] == u;
        var j :| 0 <= j < |w| && w[j] == v;
        assert i == j;
      }
    }
  }

  lemma {:induction false} NestedPlain(ds: seq<Directive>, v: Visit)
    requires v in Nested(ds) && !v.d.inlined
    ensures v.d.line in PlainLines(ds)
  {
    var d := ds[0];
    assert ds == [d] + ds[1..];
    NestedFirst(d, ds[1..]);
    if v != Visit(d, false) {
      NestedPlain(ds[1..], v);
    }
  }

  lemma {:induction false} WalkPlain(ds: seq<Directive>, v: Visit)
    requires v in Walk(ds) && !v.d.inlined
    ensures v.d.line in PlainLines(ds)
  {
    var d := ds[0];
    if v in Nested(d.children) {
      NestedPlain(d.children, v);
    } else if v in Walk(ds[1..]) {
      WalkPlain(ds[1..], v);
    }
  }

  lemma DropsArePlain(ds: seq<Directive>, from: nat, to: nat)
    requires Acceptable(ds)
    ensures DropsOnly(DropOf(ds), from, to, PlainLines(ds))
  {
    hide Remotes, Effective, StripLines, DropOf, PlainLines, Checked;
    forall l | l in DropOf(ds) ensures l in PlainLines(ds) {
      DropIs(ds, l);
      var v :| v in Walk(ds) && Strips(v, |Remotes(ds)| > 1) && v.d.line == l;
      assert Permitted(v);
      if v.d.name in STRIP_ONLY {
        StripOnlyIsPlain(v.d);
      }
      WalkPlain(ds, v);
    }
  }

  // ---- texts and their lines ----

  /** Every physical line, its newline included, has at most 255 bytes. */
  ghost predicate Short(data: string) { forall l | l in Lines(data) :: |l| <= LONGEST }

  lemma {:induction false} LineEndIs(s: string, i: nat)
    requires i < |s|
    ensures var e := LineEnd(s, i, |s|); (s[e-1] == '\n' || e == |s|) && '\n' !in s[i..e-1]
    decreases |s| - i
  {
    if s[i] != '\n' && i + 1 < |s| {
      LineEndIs(s, i + 1);
      var e := LineEnd(s, i, |s|);
      assert s[i..e-1] == [s[i]] + s[i+1..e-1];
    }
  }

  lemma FirstLine(s: string)
    requires s != ""
    ensures var e := LineEnd(s, 0, |s|); IsLine(s[..e]) && (Ended(s[..e]) || e == |s|)
  {
    var e := LineEnd(s, 0, |s|);
    LineEndIs(s, 0);
    assert s[..e][..e-1] == s[0..e-1];
  }

  lemma OneMoreLine(l: string, lines: seq<string>)
    requires IsLine(l) && |l| <= LONGEST && (Ended(l) || lines == []) && ShortLines(lines)
    ensures ShortLines([l] + lines) && Concat([l] + lines) == l + Concat(lines)
  {
    assert ([l] + lines)[1..] == lines;
  }

  lemma ShortParts(s: string, l: string, rest: string)
    requires Lines(s) == [l] + Lines(rest) && Short(s)
    ensures |l| <= LONGEST && Short(rest)
  {
    hide Lines;
    assert l in [l] + Lines(rest);
    forall k | k in Lines(rest) ensures |k| <= LONGEST { assert k in [l] + Lines(rest); }
  }

  lemma {:induction false} LinesAreLines(s: string)
    requires Short(s)
    ensures ShortLines(Lines(s)) && Concat(Lines(s)) == s
    decreases |s|
  {
    if s != "" {
      var l, rest := LinesUnfold(s);
      hide *;
      ShortParts(s, l, rest);
      LinesAreLines(rest);
      OneMoreLine(l, Lines(rest));
    }
  }

  /** A text is its first line and the rest. */
  lemma LinesUnfold(s: string) returns (l: string, rest: string)
    requires s != ""
    ensures s == l + rest && l != "" && IsLine(l) && (Ended(l) || rest == "")
    ensures Lines(s) == [l] + Lines(rest) && (rest == "" ==> Lines(rest) == [])
    ensures SplitAfter(s) == [l] + (if Ended(l) then SplitAfter(rest) else [])
  {
    var e := LineEnd(s, 0, |s|);
    FirstLine(s);
    LineEndIs(s, 0);
    hide LineEnd;
    l, rest := s[..e], s[e..];
    assert !Ended(l) ==> l == s && [l] + [] == [l];
  }

  /** Blanking pieces or lines gives the same text. */
  lemma {:induction false} RuntimeByLine(s: string, k: nat, drop: set<nat>)
    ensures Blanked(SplitAfter(s), k, drop) == Concat(BlankLines(Lines(s), k, drop))
    decreases |s|
  {
    if s == "" {
      NothingToSplit(k, drop);
    } else {
      var l, rest := LinesUnfold(s);
      hide *;
      NothingToSplit(k + 1, drop);
      BlankedFirst(l, if Ended(l) then SplitAfter(rest) else [], k, drop);
      BlankLinesFirst(l, Lines(rest), k, drop);
      if Ended(l) { RuntimeByLine(rest, k + 1, drop); }
    }
  }

  lemma NothingToSplit(k: nat, drop: set<nat>)
    ensures SplitAfter("") == [""] && Blanked([""], k, drop) == "" && Lines("") == [] && Concat(BlankLines([], k, drop)) == ""
    ensures Blanked([], k, drop) == ""
  {
    assert [""][1..] == [];
  }

  lemma BlankLinesFirst(l: string, lines: seq<string>, k: nat, drop: set<nat>)
    ensures Concat(BlankLines([l] + lines, k, drop)) == (if k in drop then Blank(l) else l) + Concat(BlankLines(lines, k + 1, drop))
  {
    var m, tail := if k in drop then Blank(l) else l, BlankLines(lines, k + 1, drop);
    assert ([l] + lines)[1..] == lines;
    assert ([m] + tail)[1..] == tail && [] + tail == tail && "" + Concat(tail) == Concat(tail);
  }

  lemma {:induction false} BlankedStaysShort(lines: seq<string>, k: nat, drop: set<nat>)
    requires ShortLines(lines) && '\0' !in Concat(lines)
    ensures ShortLines(BlankLines(lines, k, drop)) && '\0' !in Concat(BlankLines(lines, k, drop))
  {
    if lines != [] {
      var l, rest := if k in drop then Blank(lines[0]) else lines[0], BlankLines(lines[1..], k + 1, drop);
      assert forall c | c in Concat(lines[1..]) || c in lines[0] :: c in Concat(lines);
      BlankedStaysShort(lines[1..], k + 1, drop);
      BlankFirst(lines, k, drop);
      if l != "" {
        assert ([l] + rest)[1..] == rest;
        assert !Ended(l) ==> lines[1..] == [] && rest == [];
      }
    }
  }

  lemma NoNulIfParsed(data: string)
    requires Parsed(data).Ok?
    ensures '\0' !in data
  {
    assert data[0..] == data;
  }

  // ---- the theorem ----

  /** What a directive that is not stripped becomes. */
  function KeptOne(d: Directive, several: bool, drop: set<nat>): Directive {
    if !d.inlined || d.name != "connection" then d
    else d.(body := Concat(BlankLines(Lines(d.body), d.line + 1, drop)), children := Kept(d.children, several, drop))
  }

  lemma KeptUnfolds(ds: seq<Directive>, several: bool, drop: set<nat>)
    requires ds != []
    ensures Kept(ds, several, drop) ==
            if Stripped(ds[0], several) then Kept(ds[1..], several, drop) else [KeptOne(ds[0], several, drop)] + Kept(ds[1..], several, drop)
    ensures ds == [ds[0]] + ds[1..]
  {
    KeptIs(ds, several, drop);
    hide *;
    assert [] + Kept(ds[1..], several, drop) == Kept(ds[1..], several, drop);
  }

  lemma KeptIs(ds: seq<Directive>, several: bool, drop: set<nat>)
    requires ds != []
    ensures Kept(ds, several, drop) == (if Stripped(ds[0], several) then [] else [KeptOne(ds[0], several, drop)]) + Kept(ds[1..], several, drop)
  {
    hide Stripped, BlankLines, Concat, Lines;
  }

  lemma KeptOneIs(d: Directive, several: bool, drop: set<nat>)
    ensures var k := KeptOne(d, several, drop);
      && k == d.(body := k.body, children := k.children)
      && (if d.inlined && d.name == "connection" then k.children == Kept(d.children, several, drop) else k == d)
  {
    hide Kept, BlankLines, Concat, Lines;
  }

  /** v is u, its body and children aside, and u is not stripped. */
  ghost predicate KeptFrom(w: seq<Visit>, several: bool, v: Visit) {
    exists u :: u in w && !Stripped(u.d, several) && v.top == u.top && v.d == u.d.(body := v.d.body, children := v.d.children)
  }

  lemma {:induction false} KeptNested(ds: seq<Directive>, several: bool, drop: set<nat>, v: Visit)
    requires v in Nested(Kept(ds, several, drop))
    ensures KeptFrom(Nested(ds), several, v)
  {
    hide Stripped, Kept, KeptOne, Nested;
    if ds == [] {
      NothingKept(several, drop);
    } else {
      var d, tail := ds[0], Kept(ds[1..], several, drop);
      KeptUnfolds(ds, several, drop);
      NestedFirst(d, ds[1..]);
      if Stripped(d, several) {
        KeptNested(ds[1..], several, drop, v);
      } else {
        KeptOneIs(d, several, drop);
        NestedFirst(KeptOne(d, several, drop), tail);
        if v == Visit(KeptOne(d, several, drop), false) {
          assert Visit(d, false) in Nested(ds);
        } else {
          KeptNested(ds[1..], several, drop, v);
        }
      }
    }
  }

  lemma NothingKept(several: bool, drop: set<nat>)
    ensures Kept([], several, drop) == [] && Nested([]) == [] && Walk([]) == []
  {}

  /** Every visit kept is one of the profile's, its body and children aside, that is not stripped. */
  lemma {:induction false} KeptVisits(ds: seq<Directive>, several: bool, drop: set<nat>, v: Visit)
    requires Flat(ds) && v in Walk(Kept(ds, several, drop))
    ensures KeptFrom(Walk(ds), several, v)
  {
    hide Stripped, Kept, KeptOne, Nested, Walk;
    NothingKept(several, drop);
    if ds != [] {
      var d, tail := ds[0], Kept(ds[1..], several, drop);
      KeptUnfolds(ds, several, drop);
      WalkFirst(d, ds[1..]);
      assert d in ds && Flat(ds[1..]);
      if Stripped(d, several) {
        KeptVisits(ds[1..], several, drop, v);
      } else {
        var kept := KeptOne(d, several, drop);
        KeptOneIs(d, several, drop);
        WalkFirst(kept, tail);
        if v in Walk(tail) {
          KeptVisits(ds[1..], several, drop, v);
        } else if v == Visit(kept, true) {
          assert Visit(d, true) in Walk(ds);
        } else if d.inlined && d.name == "connection" {
          KeptNested(d.children, several, drop, v);
        }
      }
    }
  }

  /** What is left has no user or group, and with several remotes no persist-remote-ip. */
  predicate Clean(d: Directive, several: bool) {
    d.name !in STRIP_ONLY && (several ==> Effective(d).0 != "persist-remote-ip")
  }

  lemma KeptIsClean(ds: seq<Directive>, drop: set<nat>)
    requires Acceptable(ds) && Flat(ds)
    ensures forall v | v in Walk(Kept(ds, |Remotes(ds)| > 1, drop)) :: Clean(v.d, |Remotes(ds)| > 1)
  {
    hide Remotes, Kept, Checked;
    var several := |Remotes(ds)| > 1;
    forall v | v in Walk(Kept(ds, several, drop)) ensures Clean(v.d, several) {
      KeptVisits(ds, several, drop, v);
      var u :| u in Walk(ds) && !Stripped(u.d, several) && v.d == u.d.(body := v.d.body, children := v.d.children);
      assert Permitted(u);
      if u.d.inlined && Effective(u.d).0 == "persist-remote-ip" {
        InlineIsItself(u.d);
        StripOnlyIsPlain(u.d);
      }
    }
  }

  lemma InlineIsItself(d: Directive)
    requires Checked(d) && d.inlined
    ensures Effective(d).0 == d.name
  {}

  // ---- the remotes stay ----

  /** A directive that is stripped names no remote and sets no default, and what becomes of another says the same. */
  lemma OneStays(d: Directive, def: Defaults, several: bool, drop: set<nat>)
    ensures if Stripped(d, several) then Apply(def, d) == def && RemoteOf(d, def) == []
            else Apply(def, KeptOne(d, several, drop)) == Apply(def, d) && RemoteOf(KeptOne(d, several, drop), def) == RemoteOf(d, def)
  {
    KeptOneIs(d, several, drop);
    hide KeptOne, TrimBrackets, TransportProto;
  }

  lemma DefaultsFirst(def: Defaults, d: Directive, ds: seq<Directive>)
    ensures DefaultsOf(def, [d] + ds) == DefaultsOf(Apply(def, d), ds) && DefaultsOf(def, []) == def
  {
    hide Apply;
    assert ([d] + ds)[1..] == ds;
  }

  lemma {:induction false} DefaultsStay(def: Defaults, ds: seq<Directive>, several: bool, drop: set<nat>)
    ensures DefaultsOf(def, Kept(ds, several, drop)) == DefaultsOf(def, ds)
    decreases |ds|
  {
    hide Stripped, Kept, KeptOne, Apply, DefaultsOf, RemoteOf;
    NothingKept(several, drop);
    if ds != [] {
      KeptUnfolds(ds, several, drop);
      OneStays(ds[0], def, several, drop);
      DefaultsFirst(def, ds[0], ds[1..]);
      DefaultsFirst(def, KeptOne(ds[0], several, drop), Kept(ds[1..], several, drop));
      DefaultsStay(Apply(def, ds[0]), ds[1..], several, drop);
    }
  }

  lemma RemotesFirst(d: Directive, ds: seq<Directive>, def: Defaults)
    ensures RemotesOf([d] + ds, def) == RemoteOf(d, def) + RemotesOf(ds, def) && RemotesOf([], def) == []
  {
    hide RemoteOf;
    assert ([d] + ds)[1..] == ds;
  }

  lemma {:induction false} NestedRemotesStay(ds: seq<Directive>, def: Defaults, several: bool, drop: set<nat>)
    ensures RemotesOf(Kept(ds, several, drop), def) == RemotesOf(ds, def)
  {
    hide Stripped, Kept, KeptOne, Apply, RemoteOf, RemotesOf;
    NothingKept(several, drop);
    if ds != [] {
      KeptUnfolds(ds, several, drop);
      OneStays(ds[0], def, several, drop);
      RemotesFirst(ds[0], ds[1..], def);
      RemotesFirst(KeptOne(ds[0], several, drop), Kept(ds[1..], several, drop), def);
      NestedRemotesStay(ds[1..], def, several, drop);
      assert [] + RemotesOf(ds[1..], def) == RemotesOf(ds[1..], def);
    }
  }

  lemma RemotesWithFirst(d: Directive, ds: seq<Directive>, global: Defaults)
    ensures RemotesWith([d] + ds, global) ==
            RemoteOf(d, global) + RemotesOf(d.children, DefaultsOf(global, d.children)) + RemotesWith(ds, global)
    ensures RemotesWith([], global) == []
  {
    hide RemoteOf, DefaultsOf, RemotesOf;
    assert ([d] + ds)[1..] == ds;
  }

  /** The remotes of a block stay, and a stripped directive has none. */
  lemma BlockStays(d: Directive, global: Defaults, several: bool, drop: set<nat>)
    requires (Stripped(d, several) ==> d.children == []) && (d.children != [] ==> d.inlined && d.name == "connection")
    ensures var of := (e: Directive) => RemotesOf(e.children, DefaultsOf(global, e.children));
      if Stripped(d, several) then of(d) == [] else of(KeptOne(d, several, drop)) == of(d)
  {
    KeptOneIs(d, several, drop);
    DefaultsStay(global, d.children, several, drop);
    NestedRemotesStay(d.children, DefaultsOf(global, d.children), several, drop);
    RemotesFirst(d, [], DefaultsOf(global, []));
    hide Stripped, KeptOne, Kept, DefaultsOf, RemotesOf;
  }

  lemma {:induction false} RemotesStay(ds: seq<Directive>, global: Defaults, several: bool, drop: set<nat>)
    requires Flat(ds) && forall v | v in Walk(ds) :: Checked(v.d)
    ensures RemotesWith(Kept(ds, several, drop), global) == RemotesWith(ds, global)
  {
    hide Kept, KeptOne, Checked, RemoteOf, RemotesOf, RemotesWith, DefaultsOf, Apply, Walk;
    NothingKept(several, drop);
    if ds != [] {
      var d := ds[0];
      KeptUnfolds(ds, several, drop);
      WalkFirst(d, ds[1..]);
      assert d in ds && Flat(ds[1..]) && Visit(d, true) in Walk(ds) && forall v | v in Walk(ds[1..]) :: v in Walk(ds);
      RemotesStay(ds[1..], global, several, drop);
      if d.name in STRIP_ONLY { StripOnlyIsPlain(d); }
      assert Stripped(d, several) ==> !d.inlined;
      hide Stripped;
      OneStays(d, global, several, drop);
      BlockStays(d, global, several, drop);
      RemotesWithFirst(d, ds[1..], global);
      RemotesWithFirst(KeptOne(d, several, drop), Kept(ds[1..], several, drop), global);
      assert [] + [] + RemotesWith(ds[1..], global) == RemotesWith(ds[1..], global);
    }
  }

  /**
   * The runtime config of an accepted profile of short lines parses to the
   * profile's directives without the stripped ones: the others in the same order,
   * with the same arguments and line numbers, the bodies of <connection> blocks
   * with just those lines blanked. Nothing to strip is left, and the remotes are
   * the same.
   */
  lemma StrippingPreservesTheProfile(data: string)
    requires Short(data) && Parsed(data).Ok? && Acceptable(Parsed(data).value)
    ensures var ds := Parsed(data).value;
      var several, drop := |Remotes(ds)| > 1, DropOf(ds);
      var kept := Kept(ds, several, drop);
      && Parsed(Runtime(data, drop)) == Ok(kept)
      && (forall v | v in Walk(kept) :: Clean(v.d, several))
      && Remotes(kept) == Remotes(ds)
  {
    hide Parsed, FileLines, Remotes, Kept, Lines, ShortLines, Concat, BlankLines, Blanked, SplitAfter, DropOf,
         PlainLines, Walk, Flat, Prune;
    var lines := Lines(data);
    LinesAreLines(data);
    NoNulIfParsed(data);
    ParsedByLine(lines);
    var ds := Parsed(data).value;
    var several, drop := |Remotes(ds)| > 1, DropOf(ds);
    FileAscends(lines, 1);
    FileFlat(lines, 1);
    DropMatches(ds, 1, 1 + |lines|);
    DropsArePlain(ds, 1, 1 + |lines|);
    FilePrunes(lines, 1, drop);
    PruneIsKept(ds, drop, several);
    RuntimeByLine(data, 1, drop);
    BlankedStaysShort(lines, 1, drop);
    ParsedByLine(BlankLines(lines, 1, drop));
    KeptIsClean(ds, drop);
    SameRemotes(ds, several, drop);
  }

  lemma SameRemotes(ds: seq<Directive>, several: bool, drop: set<nat>)
    requires Flat(ds) && Acceptable(ds)
    ensures Remotes(Kept(ds, several, drop)) == Remotes(ds)
  {
    DefaultsStay(Defaults("udp", "1194"), ds, several, drop);
    assert forall v | v in Walk(ds) :: Permitted(v);
    RemotesStay(ds, DefaultsOf(Defaults("udp", "1194"), ds), several, drop);
  }
}
