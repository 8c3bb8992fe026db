// The reader seen line by line. When no physical line is longer than 255 bytes
// both line disciplines read exactly one of them at a time.
module ProfileLines {
  import opened Common
  import opened Tokenizer
  import opened ProfileReader

  /** A physical line: no newline but at its end. */
  predicate IsLine(l: string) { l != "" && '\n' !in l[..|l|-1] }

  predicate Ended(l: string) { l != "" && l[|l|-1] == '\n' }

  const LONGEST := 255

  /** Lines of at most 255 bytes, their newline included; only the last may lack one. */
  predicate ShortLines(lines: seq<string>) {
    lines == [] ||
    (IsLine(lines[0]) && |lines[0]| <= LONGEST && (Ended(lines[0]) || |lines| == 1) && ShortLines(lines[1..]))
  }

  predicate AllEnded(lines: seq<string>) { lines == [] || (Ended(lines[0]) && AllEnded(lines[1..])) }

  function Concat(lines: seq<string>): string {
    if lines == [] then "" else lines[0] + Concat(lines[1..])
  }

  // ---- the readers on lines ----

  /** A block body, the lines it takes and the lines after its close line. */
  datatype LineBody = LineBody(inside: seq<string>, after: seq<string>)

  function BodyOf(lines: seq<string>, closeTag: string): (r: Option<LineBody>)
    ensures r.Some? ==> r.value.inside <= lines && |r.value.inside| + 1 + |r.value.after| == |lines|
    ensures r.Some? ==> r.value.after == lines[|r.value.inside| + 1..]
    decreases |lines|
  {
    if lines == [] then None
    else if Closes(lines[0], closeTag) then Some(LineBody([], lines[1..]))
    else
      match BodyOf(lines[1..], closeTag)
      case None => None
      case Some(b) => Some(LineBody([lines[0]] + b.inside, b.after))
  }

  /** A line of a <connection> body without its newline. */
  function Content(l: string): string { if Ended(l) then l[..|l|-1] else l }

  function ConnectionLines(lines: seq<string>, k: nat): Result<seq<Directive>, ReadError>
    decreases |lines|
  {
    if lines == [] then Ok([])
    else
      match Tokens(Content(lines[0]))
      case Err(e) => Err(BadLine(k, e))
      case Ok(p) =>
        if p == [] then ConnectionLines(lines[1..], k + 1)
        else
          match InlineTag(Bare(p))
          case None => Prepend(Plain(p, k), ConnectionLines(lines[1..], k + 1))
          case Some(tag) =>
            match BodyOf(lines[1..], CloseTag(tag))
            case None => Err(EndTagMissing(k, tag))
            case Some(b) =>
              if tag == "connection" then Err(NestedConnection(k))
              else Prepend(Directive(tag, [], k, true, Concat(b.inside), []), ConnectionLines(b.after, k + |b.inside| + 2))
  }

  /** The block whose body starts with these lines, the first of which has number k. */
  function BlockLines(b: LineBody, tag: string, k: nat): Result<Directive, ReadError>
    requires k > 0
  {
    var children := if tag == "connection" then ConnectionLines(b.inside, k) else Ok([]);
    if children.Err? then Err(children.error) else Ok(Directive(tag, [], k - 1, true, Concat(b.inside), children.value))
  }

  /** The directives of the file's lines from number k on. */
  function FileLines(lines: seq<string>, k: nat): Result<seq<Directive>, ReadError>
    requires k > 0
    decreases |lines|
  {
    if lines == [] then Ok([])
    else
      match Tokens(Text(lines[0], k == 1))
      case Err(e) => Err(BadLine(k, e))
      case Ok(p) =>
        if p == [] then FileLines(lines[1..], k + 1)
        else
          match InlineTag(Bare(p))
          case None => Prepend(Plain(p, k), FileLines(lines[1..], k + 1))
          case Some(tag) =>
            match BodyOf(lines[1..], CloseTag(tag))
            case None => Err(EndTagMissing(k, tag))
            case Some(b) =>
              match BlockLines(b, tag, k + 1)
              case Err(e) => Err(e)
              case Ok(d) => Prepend(d, FileLines(b.after, k + |b.inside| + 2))
  }

  // ---- reading one line ----

  /** data[pos..end] is the text of these lines, the first of which has number k. */
  ghost predicate Ahead(data: string, pos: nat, end: nat, lines: seq<string>, k: nat) {
    pos <= end <= |data| && data[pos..end] == Concat(lines) && (lines != [] ==> LineNo(data, pos) == k)
  }

  lemma {:induction false} LineEndAt(data: string, pos: nat, i: nat, limit: nat, l: string)
    requires pos <= i <= limit <= |data| && IsLine(l)
    requires i < pos + |l| <= |data| && data[pos..pos+|l|] == l
    requires limit >= pos + |l| && (Ended(l) || limit == pos + |l|)
    ensures LineEnd(data, i, limit) == pos + |l|
    decreases limit - i
  {
    assert data[i] == l[i - pos];
    if i == pos + |l| - 1 {
      assert limit > i + 1 ==> data[i] == '\n';
      assert LineEnd(data, i + 1, limit) == i + 1 || data[i] == '\n';
    } else {
      assert l[..|l|-1][i - pos] == l[i - pos];
      LineEndAt(data, pos, i + 1, limit, l);
    }
  }

  lemma NewlinesOfLine(l: string)
    requires IsLine(l)
    ensures Newlines(l) == if Ended(l) then 1 else 0
  {
    assert l == l[..|l|-1] + [l[|l|-1]];
    NewlinesConcat(l[..|l|-1], [l[|l|-1]]);
    NoNewlines(l[..|l|-1]);
    assert [l[|l|-1]][1..] == "";
  }

  lemma {:induction false} NoNewlines(s: string)
    requires '\n' !in s
    ensures Newlines(s) == 0
  {
    if s != "" {
      NoNewlines(s[1..]);
    }
  }

  /** The first of the lines ahead is there, and the others are ahead of its end. */
  lemma AheadNext(data: string, pos: nat, end: nat, lines: seq<string>, k: nat)
    requires Ahead(data, pos, end, lines, k) && lines != [] && IsLine(lines[0]) && (Ended(lines[0]) || |lines| == 1)
    ensures var l := lines[0];
      && pos + |l| <= end && data[pos..pos+|l|] == l
      && (Ended(l) || pos + |l| == end)
      && Ahead(data, pos + |l|, end, lines[1..], k + 1)
  {
    var l, text := lines[0], Concat(lines);
    assert text == l + Concat(lines[1..]);
    SplitAt(data, pos, end, l, Concat(lines[1..]));
    NewlinesConcat(data[..pos], l);
    NewlinesOfLine(l);
  }

  lemma SplitAt(data: string, pos: nat, end: nat, l: string, rest: string)
    requires pos <= end <= |data| && data[pos..end] == l + rest
    ensures pos + |l| <= end && data[pos..pos+|l|] == l && data[pos+|l|..end] == rest && data[..pos+|l|] == data[..pos] + l
  {
    assert data[pos..end][..|l|] == data[pos..pos+|l|];
    assert data[pos..end][|l|..] == data[pos+|l|..end];
  }

  lemma FgetsReads(data: string, pos: nat, end: nat, lines: seq<string>, k: nat, size: nat)
    requires Ahead(data, pos, end, lines, k) && lines != [] && ShortLines(lines) && size > LONGEST
    ensures var l := lines[0];
      pos + |l| <= end && Fgets(data, pos, end, size) == Read(l, pos, pos + |l|, true, false)
  {
    AheadNext(data, pos, end, lines, k);
    LineEndAt(data, pos, pos, if pos + size - 1 > end then end else pos + size - 1, lines[0]);
  }

  lemma {:induction false} LineStopAt(data: string, pos: nat, i: nat, end: nat, l: string)
    requires pos <= i < pos + |l| <= end <= |data| && IsLine(l) && Ended(l) && |l| <= LONGEST
    requires data[pos..pos+|l|] == l
    ensures LineStop(data, pos, i, end, LINE_SIZE) == pos + |l| - 1
    decreases end - i
  {
    assert data[i] == l[i - pos];
    if i < pos + |l| - 1 {
      assert l[..|l|-1][i - pos] == l[i - pos];
      LineStopAt(data, pos, i + 1, end, l);
    }
  }

  lemma BufParseReads(data: string, pos: nat, end: nat, lines: seq<string>, k: nat)
    requires Ahead(data, pos, end, lines, k) && lines != [] && ShortLines(lines) && AllEnded(lines)
    ensures var l := lines[0];
      pos + |l| <= end && BufParse(data, pos, end, LINE_SIZE) == Read(Content(l), pos, pos + |l|, true, false)
  {
    var l := lines[0];
    AheadNext(data, pos, end, lines, k);
    LineStopAt(data, pos, pos, end, l);
    assert data[pos..pos+|l|-1] == l[..|l|-1] by { assert data[pos..pos+|l|][..|l|-1] == data[pos..pos+|l|-1]; }
    assert data[pos+|l|-1] == data[pos..pos+|l|][|l|-1];
  }

  lemma GetReads(data: string, pos: nat, end: nat, buf: bool, lines: seq<string>, k: nat)
    requires Ahead(data, pos, end, lines, k) && lines != [] && ShortLines(lines) && (buf ==> AllEnded(lines))
    ensures var l := lines[0];
      pos + |l| <= end && Get(data, pos, end, buf) == Read(l, pos, pos + |l|, true, false)
  {
    if buf {
      BufParseReads(data, pos, end, lines, k);
      assert lines[0] == lines[0][..|lines[0]|-1] + "\n";
    } else {
      FgetsReads(data, pos, end, lines, k, LINE_SIZE);
    }
  }

  // ---- reading blocks and directives ----

  /** One line, then the lines ahead of its end. */
  lemma AheadJoin(data: string, pos: nat, stop: nat, l: string, inside: seq<string>, k: nat)
    requires pos + |l| <= stop <= |data| && data[pos..pos+|l|] == l && LineNo(data, pos) == k
    requires Ahead(data, pos + |l|, stop, inside, k + 1)
    ensures Ahead(data, pos, stop, [l] + inside, k)
  {
    assert ([l] + inside)[1..] == inside;
    assert data[pos..stop] == data[pos..pos+|l|] + data[pos+|l|..stop];
  }

  /** What BodyFrom returns for the lines ahead. */
  ghost predicate BodyMatches(data: string, pos: nat, end: nat, lines: seq<string>, k: nat, closeTag: string, sofar: string, read: Result<Body, BodyError>) {
    match BodyOf(lines, closeTag)
    case None => read == Err(NoEndTag)
    case Some(b) =>
      && read.Ok? && read.value.text == sofar + Concat(b.inside)
      && Ahead(data, pos, read.value.end, b.inside, k)
      && Ahead(data, read.value.next, end, b.after, k + |b.inside| + 1)
  }

  /** The text from pos on starts with the line. */
  ghost predicate StartsWith(data: string, pos: nat, end: nat, l: string) {
    pos + |l| <= end <= |data| && data[pos..pos+|l|] == l
  }

  /** What is left behind one line of a body. */
  lemma BodyAhead(data: string, pos: nat, end: nat, buf: bool, lines: seq<string>, k: nat)
    requires Ahead(data, pos, end, lines, k) && lines != [] && ShortLines(lines) && (buf ==> AllEnded(lines))
    ensures var l, rest := lines[0], lines[1..];
      && ShortLines(rest) && (buf ==> AllEnded(rest))
      && pos + |l| <= end <= |data| && Ahead(data, pos + |l|, end, rest, k + 1) && StartsWith(data, pos, end, l)
  {
    AheadNext(data, pos, end, lines, k);
    assert StartsWith(data, pos, end, lines[0]);
    hide Ahead, Concat, StartsWith;
  }

  /** One line of a body. */
  lemma BodySteps(data: string, pos: nat, end: nat, buf: bool, lines: seq<string>, k: nat, closeTag: string, sofar: string)
    requires Ahead(data, pos, end, lines, k) && lines != [] && ShortLines(lines) && (buf ==> AllEnded(lines))
    requires pos + |lines[0]| <= end <= |data|
    ensures BodyFrom(data, pos, end, buf, closeTag, sofar) ==
            if Closes(lines[0], closeTag) then Ok(Body(sofar, pos, pos + |lines[0]|))
            else BodyFrom(data, pos + |lines[0]|, end, buf, closeTag, sofar + lines[0])
  {
    GetReads(data, pos, end, buf, lines, k);
    hide Ahead, Get, Concat, Closes;
  }

  lemma NoBody(data: string, pos: nat, end: nat, buf: bool, k: nat, closeTag: string, sofar: string)
    requires Ahead(data, pos, end, [], k)
    ensures BodyMatches(data, pos, end, [], k, closeTag, sofar, BodyFrom(data, pos, end, buf, closeTag, sofar))
  {
    assert BodyFrom(data, pos, end, buf, closeTag, sofar) == Err(NoEndTag);
  }

  /** A line that closes the body, or one that does not and what the others read as. */
  lemma BodyReadsOn(data: string, pos: nat, end: nat, buf: bool, lines: seq<string>, k: nat, closeTag: string, sofar: string)
    requires Ahead(data, pos, end, lines, k) && lines != [] && ShortLines(lines) && (buf ==> AllEnded(lines))
    requires pos + |lines[0]| <= end <= |data|
    requires BodyMatches(data, pos + |lines[0]|, end, lines[1..], k + 1, closeTag, sofar + lines[0],
                         BodyFrom(data, pos + |lines[0]|, end, buf, closeTag, sofar + lines[0]))
    ensures BodyMatches(data, pos, end, lines, k, closeTag, sofar, BodyFrom(data, pos, end, buf, closeTag, sofar))
  {
    hide *;
    BodyAhead(data, pos, end, buf, lines, k);
    BodySteps(data, pos, end, buf, lines, k, closeTag, sofar);
    if Closes(lines[0], closeTag) {
      BodyEnds(data, pos, end, lines, k, closeTag, sofar);
    } else {
      BodyExtends(data, pos, end, lines, k, closeTag, sofar, BodyFrom(data, pos, end, buf, closeTag, sofar));
    }
  }

  lemma {:induction false} BodyReads(data: string, pos: nat, end: nat, buf: bool, lines: seq<string>, k: nat, closeTag: string, sofar: string)
    requires Ahead(data, pos, end, lines, k) && ShortLines(lines) && (buf ==> AllEnded(lines))
    ensures BodyMatches(data, pos, end, lines, k, closeTag, sofar, BodyFrom(data, pos, end, buf, closeTag, sofar))
    decreases |lines|
  {
    assert pos <= end <= |data|;
    hide *;
    if lines == [] {
      NoBody(data, pos, end, buf, k, closeTag, sofar);
    } else {
      BodyAhead(data, pos, end, buf, lines, k);
      BodyReads(data, pos + |lines[0]|, end, buf, lines[1..], k + 1, closeTag, sofar + lines[0]);
      BodyReadsOn(data, pos, end, buf, lines, k, closeTag, sofar);
    }
  }

  lemma BodyEnds(data: string, pos: nat, end: nat, lines: seq<string>, k: nat, closeTag: string, sofar: string)
    requires Ahead(data, pos, end, lines, k) && lines != [] && Closes(lines[0], closeTag)
    requires Ahead(data, pos + |lines[0]|, end, lines[1..], k + 1)
    ensures BodyMatches(data, pos, end, lines, k, closeTag, sofar, Ok(Body(sofar, pos, pos + |lines[0]|)))
  {
    assert sofar + Concat([]) == sofar && data[pos..pos] == Concat([]);
  }

  lemma BodyExtends(data: string, pos: nat, end: nat, lines: seq<string>, k: nat, closeTag: string, sofar: string, read: Result<Body, BodyError>)
    requires Ahead(data, pos, end, lines, k) && lines != [] && !Closes(lines[0], closeTag)
    requires StartsWith(data, pos, end, lines[0])
    requires BodyMatches(data, pos + |lines[0]|, end, lines[1..], k + 1, closeTag, sofar + lines[0], read)
    ensures BodyMatches(data, pos, end, lines, k, closeTag, sofar, read)
  {
    var l := lines[0];
    var tail := BodyOf(lines[1..], closeTag);
    if tail.Some? {
      var inside := [l] + tail.value.inside;
      AheadJoin(data, pos, read.value.end, l, tail.value.inside, k);
      assert inside[0] == l && inside[1..] == tail.value.inside;
      assert sofar + l + Concat(tail.value.inside) == sofar + Concat(inside);
    }
  }

  /** The lines of a block, and those after it, are short; those of a body have their newline. */
  lemma {:induction false} BodyShort(lines: seq<string>, closeTag: string)
    requires ShortLines(lines) && BodyOf(lines, closeTag).Some?
    ensures var b := BodyOf(lines, closeTag).value;
      ShortLines(b.inside) && AllEnded(b.inside) && ShortLines(b.after) && (AllEnded(lines) ==> AllEnded(b.after))
    decreases |lines|
  {
    if !Closes(lines[0], closeTag) {
      BodyShort(lines[1..], closeTag);
      var b := BodyOf(lines, closeTag).value;
      assert b.inside[1..] == BodyOf(lines[1..], closeTag).value.inside;
    }
  }

  lemma {:induction false} ConnectionReads(data: string, pos: nat, end: nat, lines: seq<string>, k: nat)
    requires Ahead(data, pos, end, lines, k) && ShortLines(lines) && AllEnded(lines)
    ensures ConnectionFrom(data, pos, end) == ConnectionLines(lines, k)
    decreases |lines|, 1
  {
    if lines != [] {
      ConnectionStep(data, pos, end, lines, k);
    }
  }

  /** What a line with tokens p makes of the reading of the rest, or of the block that it opens. */
  function GoesOn(p: Result<seq<string>, LineError>, k: nat, rest: Result<seq<Directive>, ReadError>, block: Result<seq<Directive>, ReadError>):
      Result<seq<Directive>, ReadError>
  {
    match p
    case Err(e) => Err(BadLine(k, e))
    case Ok(tokens) =>
      if tokens == [] then rest
      else
        match InlineTag(Bare(tokens))
        case None => Prepend(Plain(tokens, k), rest)
        case Some(_) => block
  }

  function TagOf(p: Result<seq<string>, LineError>): string {
    if p.Ok? && p.value != [] && InlineTag(Bare(p.value)).Some? then InlineTag(Bare(p.value)).value else ""
  }

  lemma ConnectionIs(data: string, pos: nat, end: nat)
    requires pos <= end <= |data| && BufParse(data, pos, end, LINE_SIZE).ok && !BufParse(data, pos, end, LINE_SIZE).truncated
    ensures var l, ln := BufParse(data, pos, end, LINE_SIZE), LineNo(data, pos);
      var p := Tokens(l.line);
      ConnectionFrom(data, pos, end) == GoesOn(p, ln, ConnectionFrom(data, l.next, end), ConnectionBlock(data, l.next, end, TagOf(p), ln))
  {
    hide Tokens, LineNo, BufParse, CloseTag, InlineTag, BodyFrom, Bare, Plain, Prepend;
  }

  lemma AheadLine(data: string, pos: nat, end: nat, lines: seq<string>, k: nat)
    requires Ahead(data, pos, end, lines, k) && lines != []
    ensures LineNo(data, pos) == k
  {}

  lemma ConnectionUnfolds(data: string, pos: nat, end: nat, lines: seq<string>, k: nat)
    requires Ahead(data, pos, end, lines, k) && ShortLines(lines) && AllEnded(lines) && lines != [] && pos + |lines[0]| <= end <= |data|
    ensures var p, next := Tokens(Content(lines[0])), pos + |lines[0]|;
      ConnectionFrom(data, pos, end) == GoesOn(p, k, ConnectionFrom(data, next, end), ConnectionBlock(data, next, end, TagOf(p), k))
  {
    hide *;
    AheadLine(data, pos, end, lines, k);
    BufParseReads(data, pos, end, lines, k);
    ConnectionIs(data, pos, end);
  }

  lemma ConnectionLinesUnfold(lines: seq<string>, k: nat)
    requires lines != []
    ensures var p := Tokens(Content(lines[0]));
      ConnectionLines(lines, k) == GoesOn(p, k, ConnectionLines(lines[1..], k + 1), ConnectionBlockLines(lines[1..], k + 1, TagOf(p)))
  {
    hide Tokens, CloseTag, InlineTag, BodyOf, Content, Bare, Plain, Prepend;
  }

  lemma ConnectionStep(data: string, pos: nat, end: nat, lines: seq<string>, k: nat)
    requires Ahead(data, pos, end, lines, k) && ShortLines(lines) && AllEnded(lines) && lines != []
    ensures ConnectionFrom(data, pos, end) == ConnectionLines(lines, k)
    decreases |lines|, 0
  {
    hide *;
    BodyAhead(data, pos, end, true, lines, k);
    ConnectionUnfolds(data, pos, end, lines, k);
    ConnectionLinesUnfold(lines, k);
    ConnectionReads(data, pos + |lines[0]|, end, lines[1..], k + 1);
    ConnectionBlockReads(data, pos + |lines[0]|, end, lines[1..], k + 1, TagOf(Tokens(Content(lines[0]))));
  }

  /** The rest of a <connection> body that goes on with the body of a block. */
  function ConnectionBlock(data: string, pos: nat, end: nat, tag: string, line: nat): Result<seq<Directive>, ReadError>
    requires pos <= end <= |data|
  {
    match BodyFrom(data, pos, end, true, CloseTag(tag), "")
    case Err(e) => Err(BlockError(e, line, tag))
    case Ok(b) =>
      if tag == "connection" then Err(NestedConnection(line))
      else Prepend(Directive(tag, [], line, true, b.text, []), ConnectionFrom(data, b.next, end))
  }

  function ConnectionBlockLines(lines: seq<string>, k: nat, tag: string): Result<seq<Directive>, ReadError>
    requires k > 0
  {
    match BodyOf(lines, CloseTag(tag))
    case None => Err(EndTagMissing(k - 1, tag))
    case Some(b) =>
      if tag == "connection" then Err(NestedConnection(k - 1))
      else Prepend(Directive(tag, [], k - 1, true, Concat(b.inside), []), ConnectionLines(b.after, k + |b.inside| + 1))
  }

  lemma ConnectionBlockReads(data: string, pos: nat, end: nat, lines: seq<string>, k: nat, tag: string)
    requires Ahead(data, pos, end, lines, k) && ShortLines(lines) && AllEnded(lines) && k > 0
    ensures ConnectionBlock(data, pos, end, tag, k - 1) == ConnectionBlockLines(lines, k, tag)
    decreases |lines|, 2
  {
    hide Newlines, LineNo, Closes, CloseTag, IsLine, Ended, Concat, ConnectionFrom, ConnectionLines, ShortLines, AllEnded, Prepend;
    assert pos <= end <= |data|;
    hide Ahead;
    var close := CloseTag(tag);
    BodyReads(data, pos, end, true, lines, k, close, "");
    var b := BodyOf(lines, close);
    if b.Some? {
      BodyShort(lines, close);
      assert "" + Concat(b.value.inside) == Concat(b.value.inside);
      var read := BodyFrom(data, pos, end, true, close, "");
      ConnectionReads(data, read.value.next, end, b.value.after, k + |b.value.inside| + 1);
    }
  }

  /** What BlockAt returns for the lines ahead of the body. */
  ghost predicate BlockMatches(data: string, lines: seq<string>, k: nat, tag: string, block: Result<Block, ReadError>)
    requires k > 0
  {
    match BodyOf(lines, CloseTag(tag))
    case None => block == Err(EndTagMissing(k - 1, tag))
    case Some(b) =>
      var d := BlockLines(b, tag, k);
      if d.Err? then block == Err(d.error)
      else block.Ok? && block.value.directive == d.value &&
           Ahead(data, block.value.next, |data|, b.after, k + |b.inside| + 1)
  }

  lemma BlockReads(data: string, pos: nat, lines: seq<string>, k: nat, tag: string)
    requires Ahead(data, pos, |data|, lines, k) && ShortLines(lines) && k > 0
    ensures BlockMatches(data, lines, k, tag, BlockAt(data, pos, tag, k - 1))
  {
    var close := CloseTag(tag);
    BodyReads(data, pos, |data|, false, lines, k, close, "");
    var b := BodyOf(lines, close);
    if b.Some? {
      BodyShort(lines, close);
      var read := BodyFrom(data, pos, |data|, false, close, "");
      assert "" + Concat(b.value.inside) == Concat(b.value.inside);
      ConnectionReads(data, pos, read.value.end, b.value.inside, k);
    }
  }

  lemma {:induction false} FileReads(data: string, pos: nat, lines: seq<string>, k: nat)
    requires Ahead(data, pos, |data|, lines, k) && ShortLines(lines) && k > 0
    ensures FileFrom(data, pos, k == 1) == FileLines(lines, k)
    decreases |lines|, 1
  {
    if lines != [] {
      FileStep(data, pos, lines, k);
    }
  }

  lemma FileIs(data: string, pos: nat, first: bool)
    requires pos <= |data| && Fgets(data, pos, |data|, LINE_SIZE + 1).ok && |Fgets(data, pos, |data|, LINE_SIZE + 1).line| != LINE_SIZE
    ensures var l, ln := Fgets(data, pos, |data|, LINE_SIZE + 1), LineNo(data, pos);
      var p := Tokens(Text(l.line, first));
      FileFrom(data, pos, first) == GoesOn(p, ln, FileFrom(data, l.next, false), FileBlock(data, l.next, TagOf(p), ln))
  {
    hide Tokens, LineNo, Fgets, InlineTag, BlockAt, Bare, Plain, Prepend, Text;
  }

  lemma FileLinesUnfold(lines: seq<string>, k: nat)
    requires k > 0 && lines != []
    ensures var p := Tokens(Text(lines[0], k == 1));
      FileLines(lines, k) == GoesOn(p, k, FileLines(lines[1..], k + 1), FileBlockLines(lines[1..], k + 1, TagOf(p)))
  {
    hide Tokens, CloseTag, InlineTag, BodyOf, BlockLines, Bare, Plain, Prepend, Text;
  }

  lemma FileStep(data: string, pos: nat, lines: seq<string>, k: nat)
    requires Ahead(data, pos, |data|, lines, k) && ShortLines(lines) && k > 0 && lines != []
    ensures FileFrom(data, pos, k == 1) == FileLines(lines, k)
    decreases |lines|, 0
  {
    hide Ahead, ShortLines, StartsWith, FileFrom, FileLines, Fgets, LineNo, GoesOn, TagOf, FileBlock, FileBlockLines, Text, Tokens;
    AheadLine(data, pos, |data|, lines, k);
    BodyAhead(data, pos, |data|, false, lines, k);
    FgetsReads(data, pos, |data|, lines, k, LINE_SIZE + 1);
    FirstIsShort(lines);
    FileIs(data, pos, k == 1);
    FileLinesUnfold(lines, k);
    FileReads(data, pos + |lines[0]|, lines[1..], k + 1);
    FileBlockReads(data, pos + |lines[0]|, lines[1..], k + 1, TagOf(Tokens(Text(lines[0], k == 1))));
  }

  lemma FirstIsShort(lines: seq<string>)
    requires ShortLines(lines) && lines != []
    ensures |lines[0]| <= LONGEST
  {}

  /** The rest of a file that goes on with the body of a block. */
  function FileBlock(data: string, pos: nat, tag: string, line: nat): Result<seq<Directive>, ReadError>
    requires pos <= |data|
  {
    match BlockAt(data, pos, tag, line)
    case Err(e) => Err(e)
    case Ok(b) => Prepend(b.directive, FileFrom(data, b.next, false))
  }

  function FileBlockLines(lines: seq<string>, k: nat, tag: string): Result<seq<Directive>, ReadError>
    requires k > 0
  {
    match BodyOf(lines, CloseTag(tag))
    case None => Err(EndTagMissing(k - 1, tag))
    case Some(b) =>
      match BlockLines(b, tag, k)
      case Err(e) => Err(e)
      case Ok(d) => Prepend(d, FileLines(b.after, k + |b.inside| + 1))
  }

  lemma FileBlockReads(data: string, pos: nat, lines: seq<string>, k: nat, tag: string)
    requires Ahead(data, pos, |data|, lines, k) && ShortLines(lines) && k > 1
    ensures FileBlock(data, pos, tag, k - 1) == FileBlockLines(lines, k, tag)
    decreases |lines|, 2
  {
    hide Newlines, LineNo, BlockAt, BlockLines, Closes, CloseTag, IsLine, Ended, Concat, FileFrom, FileLines, ShortLines, AllEnded;
    BlockReads(data, pos, lines, k, tag);
    var b := BodyOf(lines, CloseTag(tag));
    var block := BlockAt(data, pos, tag, k - 1);
    if b.Some? && block.Ok? {
      BodyShort(lines, CloseTag(tag));
      FileReads(data, block.value.next, b.value.after, k + |b.value.inside| + 1);
    }
  }

  /** Line by line is how a file of short lines is read. */
  lemma ParsedByLine(lines: seq<string>)
    requires ShortLines(lines) && '\0' !in Concat(lines)
    ensures Parsed(Concat(lines)) == FileLines(lines, 1)
  {
    var data := Concat(lines);
    assert data[0..|data|] == data && data[..0] == "" && data[0..] == data;
    assert Ahead(data, 0, |data|, lines, 1);
    FileReads(data, 0, lines, 1);
  }
}
