// What a line of a profile says: words, quotes, escapes and comments, leading
// dashes, and the tags of a block (internal/ovpn/parse.go, its tests).
module ProfileText {
  import opened Common
  import opened Tokenizer
  import opened ProfileReader
  import opened ProfileLines

  // ---- words ----

  /** Up to 256 characters without a blank, a backslash or a NUL, that begin as no quote and no comment. */
  predicate Word(w: string) {
    && 0 < |w| <= 256
    && (forall c | c in w :: c != '\0' && c != '\\' && !IsSpace(c))
    && w[0] != '"' && w[0] != '\'' && w[0] != ';' && w[0] != '#'
  }

  /** The words, a blank behind each. */
  function Spaced(words: seq<string>): string {
    if words == [] then "" else words[0] + " " + Spaced(words[1..])
  }

  predicate Blanks(s: string) { forall c | c in s :: c == ' ' || c == '\t' || c == '\n' || c == '\r' }

  /** A word is over at the next blank, and after the sixteenth nothing is read. */
  lemma {:induction false} WordEnds(w: string, blank: char, parm: string, ret: seq<string>, rest: string)
    requires parm != "" && |parm| + |w| <= 256 && |ret| < 16 && IsSpace(blank)
    requires forall c | c in w :: c != '\0' && c != '\\' && !IsSpace(c)
    ensures Scanned(Scan(Unquoted, false, parm, ret), w + [blank] + rest) ==
            if |ret| == 15 then Ok(ret + [parm + w]) else Scanned(Scan(Initial, false, "", ret + [parm + w]), rest)
  {
    var line := w + [blank] + rest;
    if w == "" {
      assert line[0] == blank && line[1..] == rest && parm + w == parm;
    } else {
      assert w[0] in w && forall c | c in w[1..] :: c in w;
      assert line[0] == w[0] && line[1..] == w[1..] + [blank] + rest;
      WordEnds(w[1..], blank, parm + [w[0]], ret, rest);
      assert parm + [w[0]] + w[1..] == parm + w;
    }
  }

  lemma WordReads(w: string, blank: char, ret: seq<string>, rest: string)
    requires Word(w) && |ret| < 16 && IsSpace(blank)
    ensures Scanned(Scan(Initial, false, "", ret), w + [blank] + rest) ==
            if |ret| == 15 then Ok(ret + [w]) else Scanned(Scan(Initial, false, "", ret + [w]), rest)
  {
    var tail := w[1..] + [blank] + rest;
    assert w[0] in w && forall c | c in w[1..] :: c in w;
    WordBegins(w[0], ret, tail);
    hide Scanned;
    assert w + [blank] + rest == [w[0]] + tail && [w[0]] + w[1..] == w;
    WordEnds(w[1..], blank, [w[0]], ret, rest);
  }

  lemma WordBegins(c: char, ret: seq<string>, tail: string)
    requires c != '\0' && c != '\\' && !IsSpace(c) && c != '"' && c != '\'' && c != ';' && c != '#' && |ret| < 16
    ensures Scanned(Scan(Initial, false, "", ret), [c] + tail) == Scanned(Scan(Unquoted, false, [c], ret), tail)
  {
    assert ([c] + tail)[1..] == tail && "" + [c] == [c];
  }

  lemma {:induction false} BlanksSkipped(blanks: string, ret: seq<string>)
    requires Blanks(blanks) && |ret| < 16
    ensures Scanned(Scan(Initial, false, "", ret), blanks) == Ok(ret)
  {
    if blanks != "" {
      assert blanks[0] in blanks && forall c | c in blanks[1..] :: c in blanks;
      BlanksSkipped(blanks[1..], ret);
    }
  }

  lemma SpacedFirst(words: seq<string>, blanks: string)
    requires words != []
    ensures Spaced(words) + blanks == words[0] + [' '] + (Spaced(words[1..]) + blanks)
  {
    assert " " == [' '];
  }

  lemma FirstWords(ret: seq<string>, words: seq<string>)
    requires words != [] && |ret| < 16
    ensures ret + [words[0]] + words[1..] == ret + words
    ensures |ret| == 15 ==> (ret + words)[..16] == ret + [words[0]] && (|words| == 1 ==> ret + words == ret + [words[0]])
  {}

  lemma {:induction false} WordsReadOn(words: seq<string>, ret: seq<string>, blanks: string)
    requires (forall w | w in words :: Word(w)) && Blanks(blanks) && |ret| < 16
    ensures Scanned(Scan(Initial, false, "", ret), Spaced(words) + blanks) ==
            Ok(if |ret| + |words| <= 16 then ret + words else (ret + words)[..16])
    decreases |words|
  {
    if words == [] {
      assert "" + blanks == blanks && ret + [] == ret;
      BlanksSkipped(blanks, ret);
    } else {
      assert words[0] in words && forall w | w in words[1..] :: w in words;
      assert IsSpace(' ');
      hide *;
      SpacedFirst(words, blanks);
      FirstWords(ret, words);
      WordReads(words[0], ' ', ret, Spaced(words[1..]) + blanks);
      if |ret| < 15 { WordsReadOn(words[1..], ret + [words[0]], blanks); }
    }
  }

  /** A line of words is read as the words, the first sixteen of them. */
  lemma WordsRead(words: seq<string>, blanks: string)
    requires (forall w | w in words :: Word(w)) && Blanks(blanks)
    ensures Tokens(Spaced(words) + blanks) == Ok(if |words| <= 16 then words else words[..16])
  {
    WordsReadOn(words, [], blanks);
    assert [] + words == words;
  }

  // ---- quotes, escapes and comments ----

  /** Between single quotes everything stands for itself. */
  lemma {:induction false} SingleQuotes(w: string, parm: string, ret: seq<string>, rest: string)
    requires '\'' !in w && '\0' !in w && |parm| + |w| <= 256 && |ret| < 15
    ensures Scanned(Scan(InSingleQuotes, false, parm, ret), w + "'" + rest) == Scanned(Scan(Initial, false, "", ret + [parm + w]), rest)
  {
    var line := w + "'" + rest;
    if w == "" {
      assert line[0] == '\'' && line[1..] == rest && parm + w == parm;
    } else {
      assert line[0] == w[0] && line[1..] == w[1..] + "'" + rest;
      SingleQuotes(w[1..], parm + [w[0]], ret, rest);
      assert parm + [w[0]] + w[1..] == parm + w;
    }
  }

  lemma {:induction false} SingleQuoteLeft(w: string, parm: string)
    requires '\'' !in w && '\0' !in w && |parm| + |w| <= 256
    ensures Scanned(Scan(InSingleQuotes, false, parm, []), w) == Err(NoClosingSingleQuote)
  {
    if w != "" {
      SingleQuoteLeft(w[1..], parm + [w[0]]);
    }
  }

  /** A quoted word is that word, blanks, number signs and all; without its closing quote the line is refused. */
  lemma SingleQuotedWord(w: string, ret: seq<string>, rest: string)
    requires '\'' !in w && '\0' !in w && |w| <= 256 && |ret| < 15
    ensures Scanned(Scan(Initial, false, "", ret), "'" + w + "'" + rest) == Scanned(Scan(Initial, false, "", ret + [w]), rest)
    ensures Tokens("'" + w) == Err(NoClosingSingleQuote)
  {
    var line := "'" + w + "'" + rest;
    assert line[0] == '\'' && line[1..] == w + "'" + rest && ("'" + w)[1..] == w;
    SingleQuotes(w, "", ret, rest);
    SingleQuoteLeft(w, "");
    assert "" + w == w;
  }

  /** Between double quotes everything but the quote and the backslash stands for itself. */
  lemma DoubleQuotedWord(w: string, ret: seq<string>, rest: string)
    requires '"' !in w && '\\' !in w && '\0' !in w && |w| <= 256 && |ret| < 15
    ensures Scanned(Scan(Initial, false, "", ret), "\"" + w + "\"" + rest) == Scanned(Scan(Initial, false, "", ret + [w]), rest)
    ensures Tokens("\"" + w) == Err(NoClosingQuote)
  {
    var line := "\"" + w + "\"" + rest;
    assert line[0] == '"' && line[1..] == w + "\"" + rest && ("\"" + w)[1..] == w;
    DoubleQuotes(w, "", ret, rest);
    DoubleQuoteLeft(w, "");
    assert "" + w == w;
  }

  lemma {:induction false} DoubleQuotes(w: string, parm: string, ret: seq<string>, rest: string)
    requires '"' !in w && '\\' !in w && '\0' !in w && |parm| + |w| <= 256 && |ret| < 15
    ensures Scanned(Scan(InQuotes, false, parm, ret), w + "\"" + rest) == Scanned(Scan(Initial, false, "", ret + [parm + w]), rest)
  {
    var line := w + "\"" + rest;
    if w == "" {
      assert line[0] == '"' && line[1..] == rest && parm + w == parm;
    } else {
      assert line[0] == w[0] && line[1..] == w[1..] + "\"" + rest;
      assert Feed(Scan(InQuotes, false, parm, ret), line[0]) == More(Scan(InQuotes, false, parm + [w[0]], ret));
      hide Feed;
      DoubleQuotes(w[1..], parm + [w[0]], ret, rest);
      assert parm + [w[0]] + w[1..] == parm + w;
    }
  }

  lemma {:induction false} DoubleQuoteLeft(w: string, parm: string)
    requires '"' !in w && '\\' !in w && '\0' !in w && |parm| + |w| <= 256
    ensures Scanned(Scan(InQuotes, false, parm, []), w) == Err(NoClosingQuote)
  {
    if w != "" {
      DoubleQuoteLeft(w[1..], parm + [w[0]]);
    }
  }

  /** In a word a backslash makes a blank, a quote or a backslash part of it; before anything else the line is refused. */
  lemma EscapeReads(c: char, parm: string, ret: seq<string>, rest: string)
    requires c != '\0' && parm != "" && |parm| < 256 && |ret| < 16
    ensures Scanned(Scan(Unquoted, false, parm, ret), "\\" + [c] + rest) ==
            if c == '\\' || c == '"' || IsSpace(c) then Scanned(Scan(Unquoted, false, parm + [c], ret), rest) else Err(BadBackslash)
  {
    var line := "\\" + [c] + rest;
    assert line[0] == '\\' && line[1..] == [c] + rest && line[1..][0] == c && line[1..][1..] == rest;
  }

  /** What follows a number sign or a semicolon between words is not read; inside a word they stand for themselves. */
  lemma CommentEnds(ret: seq<string>, rest: string)
    requires |ret| < 16
    ensures Scanned(Scan(Initial, false, "", ret), "#" + rest) == Ok(ret) == Scanned(Scan(Initial, false, "", ret), ";" + rest)
  {
    assert ("#" + rest)[0] == '#' && (";" + rest)[0] == ';';
  }

  lemma TooLongWord(w: string, rest: string)
    requires |w| == 257 && Word(w[..256]) && w[256] != '\0' && w[256] != '\\' && !IsSpace(w[256])
    ensures Tokens(w + rest) == Err(ParameterTooLong)
  {
    var line := w + rest;
    assert forall c | c in w[1..256] :: c in w[..256];
    assert w[..256][0] == w[0] && w[0] in w[..256];
    assert line[0] == w[0] && line[1..] == w[1..256] + [w[256]] + rest && "" + [w[0]] == [w[0]];
    FillsUp(w[1..256], [w[0]], w[256], rest);
  }

  lemma {:induction false} FillsUp(w: string, parm: string, c: char, rest: string)
    requires parm != "" && |parm| + |w| == 256
    requires forall d | d in w + [c] :: d != '\0' && d != '\\' && !IsSpace(d)
    ensures Scanned(Scan(Unquoted, false, parm, []), w + [c] + rest) == Err(ParameterTooLong)
  {
    var line := w + [c] + rest;
    assert c in w + [c];
    if w == "" {
      assert line[0] == c;
    } else {
      assert w[0] in w + [c] && line[0] == w[0] && line[1..] == w[1..] + [c] + rest;
      assert forall d | d in w[1..] + [c] :: d in w + [c];
      FillsUp(w[1..], parm + [w[0]], c, rest);
    }
  }

  // ---- directives and blocks ----

  /** Two dashes before a name are dropped. */
  lemma DashesDrop(name: string, args: seq<string>, k: nat)
    requires name != ""
    ensures Plain(["--" + name] + args, k) == Directive(name, args, k, false, "", [])
    ensures !("--" <= name) ==> Plain([name] + args, k) == Directive(name, args, k, false, "", [])
  {
    assert (["--" + name] + args)[1..] == args && ([name] + args)[1..] == args && ("--" + name)[2..] == name;
  }

  /** A tag between angle brackets, alone on its line, opens a block. */
  lemma TagOpens(tag: string)
    ensures InlineTag(["<" + tag + ">"]) == Some(tag)
    ensures forall p: seq<string> | InlineTag(p).Some? :: p == ["<" + InlineTag(p).value + ">"]
  {
    var a := "<" + tag + ">";
    assert a[0] == '<' && a[|a|-1] == '>' && a[1..|a|-1] == tag;
    forall p: seq<string> | InlineTag(p).Some? ensures p == ["<" + InlineTag(p).value + ">"] {
      var b := p[0];
      assert b == [b[0]] + b[1..|b|-1] + [b[|b|-1]];
    }
  }

  /** The close tag ends it at the start of a line, blanks aside, and whatever follows. */
  lemma {:induction false} TagCloses(blanks: string, tag: string, rest: string)
    requires forall c | c in blanks :: IsSpace(c)
    ensures Closes(blanks + "</" + tag + ">" + rest, CloseTag(tag))
  {
    var line := blanks + "</" + tag + ">" + rest;
    if blanks == "" {
      assert line[0] == '<' && line == CloseTag(tag) + rest;
    } else {
      assert blanks[0] in blanks && forall c | c in blanks[1..] :: c in blanks;
      assert line[0] == blanks[0] && line[1..] == blanks[1..] + "</" + tag + ">" + rest;
      TagCloses(blanks[1..], tag, rest);
    }
  }

  /** Nothing else does. */
  lemma {:induction false} ClosesHow(line: string, tag: string) returns (blanks: string, rest: string)
    requires Closes(line, CloseTag(tag))
    ensures (forall c | c in blanks :: IsSpace(c)) && line == blanks + "</" + tag + ">" + rest
  {
    if line != "" && IsSpace(line[0]) {
      blanks, rest := ClosesHow(line[1..], tag);
      blanks := [line[0]] + blanks;
    } else {
      blanks, rest := "", line[|CloseTag(tag)|..];
    }
  }

  /** A line of words is a plain directive, its number that of the line. */
  lemma LineIsDirective(words: seq<string>, rest: seq<string>, k: nat)
    requires 0 < |words| <= 16 && (forall w | w in words :: Word(w)) && k > 0
    requires words[0] != "" && words[0][0] != '<' && words[0][0] != '-' && (k == 1 ==> words[0][0] != '\U{EF}')
    ensures FileLines([Spaced(words) + "\n"] + rest, k) ==
            Prepend(Directive(words[0], words[1..], k, false, "", []), FileLines(rest, k + 1))
  {
    var line := Spaced(words) + "\n";
    WordsRead(words, "\n");
    assert words[0] in words && line[0] == words[0][0];
    assert ([line] + rest)[0] == line && ([line] + rest)[1..] == rest;
    assert Bare(words) == words;
    hide Tokens, Spaced, Word, BodyOf, BlockLines;
  }

  /** So is one with two dashes before its name. */
  lemma DashedLine(name: string, rest: seq<string>, k: nat)
    requires Word(name) && |name| <= 254 && k > 0 && name[0] != '<'
    ensures FileLines(["--" + name + "\n"] + rest, k) == Prepend(Directive(name, [], k, false, "", []), FileLines(rest, k + 1))
  {
    var word := "--" + name;
    var line := word + "\n";
    assert forall c | c in word :: c == '-' || c in name;
    assert word[0] == '-' && Word(word);
    WordAlone(word);
    assert ([line] + rest)[0] == line && ([line] + rest)[1..] == rest;
    assert word[2..] == name && Bare([word]) == [name];
    assert Plain([word], k) == Directive(name, [], k, false, "", []);
    hide Tokens, BodyOf, BlockLines, Plain;
  }

  /** The line feed ends a word as a blank does. */
  lemma WordAlone(w: string)
    requires Word(w)
    ensures Tokens(w + "\n") == Ok([w])
  {
    WordReads(w, '\n', [], "");
    LineEnds([w]);
    assert w + ['\n'] + "" == w + "\n" && [] + [w] == [w];
    hide Word, Scanned;
  }

  lemma OpenTag(tag: string)
    requires Word("<" + tag + ">")
    ensures var line := "<" + tag + ">\n"; Tokens(line) == Ok(["<" + tag + ">"]) && forall first :: Text(line, first) == line
    ensures Bare(["<" + tag + ">"]) == ["<" + tag + ">"]
  {
    var open := "<" + tag + ">";
    WordAlone(open);
    assert open + "\n" == "<" + tag + ">\n" && open[0] == '<';
    hide Tokens, Word;
  }

  lemma OpenedAt(tag: string, after: seq<string>, k: nat)
    requires Word("<" + tag + ">") && k > 0
    ensures FileLines(["<" + tag + ">\n"] + after, k) == FileBlockLines(after, k + 1, tag)
  {
    var open := "<" + tag + ">\n";
    var lines := [open] + after;
    assert lines[0] == open && lines[1..] == after;
    OpenTag(tag);
    TagOpens(tag);
    FileLinesUnfold(lines, k);
    hide FileLines, FileBlockLines, Tokens, InlineTag, Word, Bare, Text;
  }

  /** A block is one directive with the text between its tags, which is read as nothing else. */
  lemma BlockIsDirective(tag: string, body: seq<string>, close: string, rest: seq<string>, k: nat)
    requires Word("<" + tag + ">") && tag != "connection" && k > 0
    requires Closes(close, CloseTag(tag)) && forall l | l in body :: !Closes(l, CloseTag(tag))
    ensures FileLines(["<" + tag + ">\n"] + (body + [close] + rest), k) ==
            Prepend(Directive(tag, [], k, true, Concat(body), []), FileLines(rest, k + |body| + 2))
  {
    hide *;
    BodyIs(body, close, rest, CloseTag(tag));
    BlockReadsOn(tag, body + [close] + rest, LineBody(body, rest), k);
  }

  lemma BlockReadsOn(tag: string, after: seq<string>, b: LineBody, k: nat)
    requires Word("<" + tag + ">") && tag != "connection" && k > 0 && BodyOf(after, CloseTag(tag)) == Some(b)
    ensures FileLines(["<" + tag + ">\n"] + after, k) ==
            Prepend(Directive(tag, [], k, true, Concat(b.inside), []), FileLines(b.after, k + |b.inside| + 2))
  {
    hide *;
    OpenedAt(tag, after, k);
    BlockIs(b, tag, k + 1);
    FileBlockIs(after, k + 1, tag, b, Directive(tag, [], k, true, Concat(b.inside), []));
  }

  lemma BlockIs(b: LineBody, tag: string, k: nat)
    requires tag != "connection" && k > 0
    ensures BlockLines(b, tag, k) == Ok(Directive(tag, [], k - 1, true, Concat(b.inside), []))
  {}

  lemma FileBlockIs(lines: seq<string>, k: nat, tag: string, b: LineBody, d: Directive)
    requires k > 0 && BodyOf(lines, CloseTag(tag)) == Some(b) && BlockLines(b, tag, k) == Ok(d)
    ensures FileBlockLines(lines, k, tag) == Prepend(d, FileLines(b.after, k + |b.inside| + 1))
  {
    hide BodyOf, BlockLines, FileLines, CloseTag;
  }

  lemma {:induction false} BodyIs(body: seq<string>, close: string, rest: seq<string>, tag: string)
    requires Closes(close, tag) && forall l | l in body :: !Closes(l, tag)
    ensures BodyOf(body + [close] + rest, tag) == Some(LineBody(body, rest))
  {
    hide Closes;
    var lines := body + [close] + rest;
    if body == [] {
      assert lines[0] == close && lines[1..] == rest;
    } else {
      assert lines[0] == body[0] && lines[1..] == body[1..] + [close] + rest && body[0] in body;
      assert forall l | l in body[1..] :: l in body;
      BodyIs(body[1..], close, rest, tag);
      assert [body[0]] + body[1..] == body;
    }
  }

  /** A first line of more than 255 bytes is refused. */
  lemma LongLineRefused(l: string, rest: string)
    requires |l| == 256 && '\n' !in l && '\0' !in l && '\0' !in rest
    ensures Parsed(l + rest) == Err(TooLong(1))
  {
    var data := l + rest;
    assert data[0..] == data && data[..0] == "";
    NoLineEnd(data, 0, 256);
  }

  lemma {:induction false} NoLineEnd(data: string, pos: nat, limit: nat)
    requires pos <= limit <= |data| && forall i | pos <= i < limit :: data[i] != '\n'
    ensures LineEnd(data, pos, limit) == limit
    decreases limit - pos
  {
    if pos < limit { NoLineEnd(data, pos + 1, limit); }
  }

  lemma {:induction false} StopsAt(data: string, start: nat, i: nat, stop: nat)
    requires start <= i <= stop < |data| && stop - start <= 255 && forall j | i <= j < stop :: data[j] != '\n'
    requires data[stop] == '\n' || stop - start == 255
    ensures LineStop(data, start, i, |data|, 256) == stop
    decreases stop - i
  {
    if i < stop { StopsAt(data, start, i + 1, stop); }
  }

  /** A line of a block has at most 255 bytes before its line feed; as body text it gets its line feed back only up to 254. */
  lemma FieldLimits(l: string, rest: string)
    requires '\n' !in l
    ensures |l| <= 255 ==> BufParse(l + "\n" + rest, 0, |l| + 1 + |rest|, 256) == Read(l, 0, |l| + 1, true, false)
    ensures |l| <= 255 ==>
      Get(l + "\n" + rest, 0, |l| + 1 + |rest|, true) == Read(if |l| < 255 then l + "\n" else l, 0, |l| + 1, true, false)
    ensures |l| > 255 ==> BufParse(l + "\n" + rest, 0, |l| + 1 + |rest|, 256) == Read(l[..255], 0, 255, true, true)
  {
    var data := l + "\n" + rest;
    if |l| <= 255 {
      assert data[|l|] == '\n' && forall j | 0 <= j < |l| :: data[j] == l[j];
      StopsAt(data, 0, 0, |l|);
      assert data[0..|l|] == l;
    } else {
      assert forall j | 0 <= j < 256 :: data[j] == l[j];
      StopsAt(data, 0, 0, 255);
      assert data[0..255] == l[..255];
    }
  }

  /** A byte order mark before the first line is dropped, and before another is not. */
  lemma MarkDropped(line: string, rest: seq<string>)
    requires |line| < 3 || line[..3] != ['\U{EF}', '\U{BB}', '\U{BF}']
    ensures FileLines([['\U{EF}', '\U{BB}', '\U{BF}'] + line] + rest, 1) == FileLines([line] + rest, 1)
  {
    var marked := ['\U{EF}', '\U{BB}', '\U{BF}'] + line;
    assert marked[3..] == line && BOM <= marked && !(BOM <= line);
    assert ([marked] + rest)[1..] == rest == ([line] + rest)[1..];
    assert Text(marked, true) == Text(line, true);
    hide *;
    FileLinesUnfold([marked] + rest, 1);
    FileLinesUnfold([line] + rest, 1);
  }
}
