// How openvpn reads a --config file: two line disciplines, inline blocks and
// re-parsed <connection> bodies (internal/ovpn/parse.go).
module ProfileReader {
  import opened Common
  import opened Tokenizer

  const LINE_SIZE := 256

  datatype Directive = Directive(
    name: string, args: seq<string>, line: nat, inlined: bool, body: string, children: seq<Directive>)

  datatype ReadError =
    | NulByte(line: nat)
    | TooLong(line: nat)
    | BadLine(line: nat, cause: LineError)
    | EndTagMissing(line: nat, tag: string)
    | BodyLineTooLong(line: nat, tag: string, at: nat)
    | NestedConnection(line: nat)

  function BypassDoubleDash(s: string): string {
    if |s| >= 3 && "--" <= s then s[2..] else s
  }

  /** The name of the block that a line with these tokens opens. */
  function InlineTag(p: seq<string>): Option<string> {
    if |p| != 1 || |p[0]| < 2 then None
    else
      var a := p[0];
      if a[0] == '<' && a[|a|-1] == '>' then Some(a[1..|a|-1]) else None
  }

  function TrimLeft(s: string): string {
    if s != "" && IsSpace(s[0]) then TrimLeft(s[1..]) else s
  }

  /** A line closes a block if it starts with the close tag, whatever follows. */
  predicate Closes(line: string, closeTag: string) { closeTag <= TrimLeft(line) }

  function CloseTag(tag: string): string { "</" + tag + ">" }

  const BOM := ['\U{EF}', '\U{BB}', '\U{BF}']

  // ---- line numbers ----

  function Newlines(s: string): nat {
    if s == "" then 0 else (if s[0] == '\n' then 1 else 0) + Newlines(s[1..])
  }

  /** The 1-based number of the line that offset off is on. */
  function LineNo(data: string, off: nat): nat
    requires off <= |data|
  {
    Newlines(data[..off]) + 1
  }

  lemma {:induction false} NewlinesConcat(a: string, b: string)
    ensures Newlines(a + b) == Newlines(a) + Newlines(b)
  {
    if a == "" {
      assert a + b == b;
    } else {
      assert (a + b)[1..] == a[1..] + b;
      NewlinesConcat(a[1..], b);
    }
  }

  class LineCounter {
    const data: string
    var off: nat
    var line: nat

    ghost predicate Valid() reads this { off <= |data| && line == LineNo(data, off) }

    constructor (data: string, off: nat)
      requires off <= |data|
      ensures Valid() && this.data == data
    {
      this.data := data;
      this.off := off;
      line := Newlines(data[..off]) + 1;
    }

    /** Counts on from the last offset, or afresh when it lies behind. */
    method At(to: nat) returns (n: nat)
      requires Valid() && to <= |data|
      modifies this
      ensures Valid() && n == LineNo(data, to)
    {
      if to < off {
        off, line := to, Newlines(data[..to]) + 1;
        return line;
      }
      assert data[..to] == data[..off] + data[off..to];
      NewlinesConcat(data[..off], data[off..to]);
      line := line + Newlines(data[off..to]);
      off := to;
      return line;
    }
  }

  // ---- one line ----

  datatype Read = Read(line: string, start: nat, next: nat, ok: bool, truncated: bool)

  /** Just past the first newline from pos on, or limit. */
  function LineEnd(data: string, pos: nat, limit: nat): (e: nat)
    requires pos <= limit <= |data|
    ensures pos <= e <= limit && (pos < limit ==> pos < e)
    decreases limit - pos
  {
    if pos == limit then limit else if data[pos] == '\n' then pos + 1 else LineEnd(data, pos + 1, limit)
  }

  /** fgets(line, size, fp): at most size-1 bytes, newline included. */
  function Fgets(data: string, pos: nat, end: nat, size: nat): (r: Read)
    requires pos <= end <= |data| && size >= 2
    ensures r.start == pos <= r.next <= end && (r.ok ==> pos < r.next)
  {
    if pos == end then Read("", pos, pos, false, false)
    else
      var e := LineEnd(data, pos, if pos + size - 1 > end then end else pos + size - 1);
      Read(data[pos..e], pos, e, true, false)
  }

  /** The first newline from i on, or where the text or the room for it ends. */
  function LineStop(data: string, start: nat, i: nat, end: nat, size: nat): (q: nat)
    requires start <= i <= end <= |data|
    ensures i <= q <= end
    decreases end - i
  {
    if i == end || data[i] == '\n' || i - start >= size - 1 then i else LineStop(data, start, i + 1, end, size)
  }

  /** buf_parse(buf, '\n', line, size): the newline is consumed, not returned. */
  function BufParse(data: string, pos: nat, end: nat, size: nat): (r: Read)
    requires pos <= end <= |data| && size >= 2
    ensures r.start == pos <= r.next <= end && (r.ok && !r.truncated ==> pos < r.next)
  {
    var q := LineStop(data, pos, pos, end, size);
    if q == end then Read(data[pos..q], pos, q, pos < q, false)
    else if data[q] == '\n' then Read(data[pos..q], pos, q + 1, true, false)
    else Read(data[pos..q], pos, q, true, true)
  }

  /** in_src_get: a line as the reader of inline blocks sees it. */
  function Get(data: string, pos: nat, end: nat, buf: bool): (r: Read)
    requires pos <= end <= |data|
    ensures r.start == pos <= r.next <= end && (r.ok && !r.truncated ==> pos < r.next)
  {
    if !buf then Fgets(data, pos, end, LINE_SIZE)
    else
      var r := BufParse(data, pos, end, LINE_SIZE);
      if |r.line| + 1 < LINE_SIZE then r.(line := r.line + "\n") else r
  }

  class LineSource {
    const data: string
    var pos: nat
    const end: nat
    const buf: bool

    ghost predicate Valid() reads this { pos <= end <= |data| }

    constructor (data: string, pos: nat, end: nat, buf: bool)
      requires pos <= end <= |data|
      ensures Valid() && this.data == data && this.pos == pos && this.end == end && this.buf == buf
    {
      this.data, this.pos, this.end, this.buf := data, pos, end, buf;
    }

    method NextLine(size: nat) returns (line: string, start: nat, ok: bool)
      requires Valid() && size >= 2
      modifies this
      ensures Valid()
      ensures Read(line, start, pos, ok, false) == Fgets(data, old(pos), end, size)
    {
      start := pos;
      if pos >= end {
        return "", start, false;
      }
      var limit := pos + size - 1;
      if limit > end {
        limit := end;
      }
      var i := pos;
      while i < limit
        invariant pos <= i <= limit
        invariant LineEnd(data, pos, limit) == LineEnd(data, i, limit)
      {
        i := i + 1;
        if data[i - 1] == '\n' {
          break;
        }
      }
      line := data[pos..i];
      pos := i;
      return line, start, true;
    }

    method NextField(size: nat) returns (line: string, start: nat, ok: bool, truncated: bool)
      requires Valid() && size >= 2
      modifies this
      ensures Valid()
      ensures Read(line, start, pos, ok, truncated) == BufParse(data, old(pos), end, size)
    {
      start := pos;
      truncated := false;
      var i := pos;
      var eol := false;
      while true
        invariant pos == old(pos) <= i <= end && !eol && !truncated
        invariant LineStop(data, pos, pos, end, size) == LineStop(data, pos, i, end, size)
        decreases end - i
      {
        if i >= end {
          eol := true;
          break;
        }
        if data[i] == '\n' {
          line := data[pos..i];
          pos := i + 1;
          return line, start, true, false;
        }
        if i - pos >= size - 1 {
          truncated := true;
          break;
        }
        i := i + 1;
      }
      line := data[pos..i];
      ok := !(eol && line == "");
      pos := i;
    }

    method Next() returns (line: string, start: nat, ok: bool, truncated: bool)
      requires Valid()
      modifies this
      ensures Valid()
      ensures Read(line, start, pos, ok, truncated) == Get(data, old(pos), end, buf)
    {
      if !buf {
        line, start, ok := NextLine(LINE_SIZE);
        return line, start, ok, false;
      }
      line, start, ok, truncated := NextField(LINE_SIZE);
      if |line| + 1 < LINE_SIZE {
        line := line + "\n";
      }
    }
  }

  // ---- inline blocks ----

  /** A block body, where its close line starts, and where reading goes on. */
  datatype Body = Body(text: string, end: nat, next: nat)

  datatype BodyError = NoEndTag | LineTooLong(at: nat)

  function BodyFrom(data: string, pos: nat, end: nat, buf: bool, closeTag: string, sofar: string): (r: Result<Body, BodyError>)
    requires pos <= end <= |data|
    ensures r.Ok? ==> pos <= r.value.end < r.value.next <= end
    decreases end - pos
  {
    var l := Get(data, pos, end, buf);
    if !l.ok then Err(NoEndTag)
    else if l.truncated then Err(LineTooLong(LineNo(data, pos)))
    else if Closes(l.line, closeTag) then Ok(Body(sofar, pos, l.next))
    else BodyFrom(data, l.next, end, buf, closeTag, sofar + l.line)
  }

  method ReadInline(src: LineSource, closeTag: string) returns (r: Result<Body, BodyError>)
    requires src.Valid()
    modifies src
    ensures src.Valid()
    ensures r == BodyFrom(src.data, old(src.pos), src.end, src.buf, closeTag, "")
    ensures r.Ok? ==> src.pos == r.value.next
  {
    var sb := "";
    while true
      invariant src.Valid()
      invariant BodyFrom(src.data, src.pos, src.end, src.buf, closeTag, sb) ==
                BodyFrom(src.data, old(src.pos), src.end, src.buf, closeTag, "")
      decreases src.end - src.pos
    {
      var line, start, ok, truncated := src.Next();
      if !ok {
        return Err(NoEndTag);
      }
      if truncated {
        return Err(LineTooLong(LineNo(src.data, start)));
      }
      if Closes(line, closeTag) {
        return Ok(Body(sb, start, src.pos));
      }
      sb := sb + line;
    }
  }

  function BlockError(e: BodyError, line: nat, tag: string): ReadError {
    match e
    case NoEndTag => EndTagMissing(line, tag)
    case LineTooLong(at) => BodyLineTooLong(line, tag, at)
  }

  // ---- <connection> bodies ----

  function Prepend(d: Directive, rest: Result<seq<Directive>, ReadError>): Result<seq<Directive>, ReadError> {
    if rest.Err? then rest else Ok([d] + rest.value)
  }

  function Plain(p: seq<string>, line: nat): Directive
    requires p != []
  {
    Directive(BypassDoubleDash(p[0]), p[1..], line, false, "", [])
  }

  /** The tokens with the leading dashes of the name dropped. */
  function Bare(p: seq<string>): seq<string>
    requires p != []
  {
    [BypassDoubleDash(p[0])] + p[1..]
  }

  /** The directives of a <connection> body from pos on. */
  function ConnectionFrom(data: string, pos: nat, end: nat): Result<seq<Directive>, ReadError>
    requires pos <= end <= |data|
    decreases end - pos
  {
    var l := BufParse(data, pos, end, LINE_SIZE);
    if !l.ok then Ok([])
    else
      var ln := LineNo(data, pos);
      if l.truncated then Err(TooLong(ln))
      else
        match Tokens(l.line)
        case Err(e) => Err(BadLine(ln, e))
        case Ok(p) =>
          if p == [] then ConnectionFrom(data, l.next, end)
          else
            match InlineTag(Bare(p))
            case None => Prepend(Plain(p, ln), ConnectionFrom(data, l.next, end))
            case Some(tag) =>
              match BodyFrom(data, l.next, end, true, CloseTag(tag), "")
              case Err(e) => Err(BlockError(e, ln, tag))
              case Ok(b) =>
                if tag == "connection" then Err(NestedConnection(ln))
                else Prepend(Directive(tag, [], ln, true, b.text, []), ConnectionFrom(data, b.next, end))
  }

  function Append(out: seq<Directive>, rest: Result<seq<Directive>, ReadError>): Result<seq<Directive>, ReadError> {
    if rest.Err? then rest else Ok(out + rest.value)
  }

  lemma AppendNothing(out: seq<Directive>, rest: Result<seq<Directive>, ReadError>)
    ensures Append([], rest) == rest && Append(out, Ok([])) == Ok(out)
  {
    assert out + [] == out && (rest.Ok? ==> [] + rest.value == rest.value);
  }

  lemma AppendPrepend(out: seq<Directive>, d: Directive, rest: Result<seq<Directive>, ReadError>)
    ensures Append(out, Prepend(d, rest)) == Append(out + [d], rest)
  {
    if rest.Ok? {
      assert out + ([d] + rest.value) == out + [d] + rest.value;
    }
  }

  method ParseConnection(data: string, start: nat, end: nat) returns (r: Result<seq<Directive>, ReadError>)
    requires start <= end <= |data|
    ensures r == ConnectionFrom(data, start, end)
  {
    var src := new LineSource(data, start, end, true);
    var lc := new LineCounter(data, start);
    var out: seq<Directive> := [];
    AppendNothing([], ConnectionFrom(data, start, end));
    while true
      invariant src.Valid() && lc.Valid() && src.data == data == lc.data && src.end == end && src.buf
      invariant fresh(src) && fresh(lc)
      invariant Append(out, ConnectionFrom(data, src.pos, end)) == ConnectionFrom(data, start, end)
      decreases end - src.pos
    {
      var line, lstart, ok, truncated := src.NextField(LINE_SIZE);
      if !ok {
        break;
      }
      var ln := lc.At(lstart);
      if truncated {
        return Err(TooLong(ln));
      }
      var tokens := ParseLine(line);
      if tokens.Err? {
        return Err(BadLine(ln, tokens.error));
      }
      var p := tokens.value;
      if |p| == 0 {
        continue;
      }
      p := p[0 := BypassDoubleDash(p[0])];
      assert p == Bare(tokens.value);
      var d := Directive(p[0], p[1..], ln, false, "", []);
      var tag := InlineTag(p);
      if tag.Some? {
        var body := ReadInline(src, "</" + tag.value + ">");
        if body.Err? {
          return Err(BlockError(body.error, ln, tag.value));
        }
        if tag.value == "connection" {
          return Err(NestedConnection(ln));
        }
        d := Directive(tag.value, [], ln, true, body.value.text, []);
      }
      AppendPrepend(out, d, ConnectionFrom(data, src.pos, end));
      out := out + [d];
    }
    AppendNothing(out, Ok([]));
    return Ok(out);
  }

  // ---- the whole file ----

  /** The text of a top-level line; a byte order mark is dropped from the first. */
  function Text(line: string, first: bool): string {
    if first && BOM <= line then line[3..] else line
  }

  datatype Block = Block(directive: Directive, next: nat)

  /** The inline block whose body starts at pos. */
  function BlockAt(data: string, pos: nat, tag: string, line: nat): (r: Result<Block, ReadError>)
    requires pos <= |data|
    ensures r.Ok? ==> pos < r.value.next <= |data|
  {
    match BodyFrom(data, pos, |data|, false, CloseTag(tag), "")
    case Err(e) => Err(BlockError(e, line, tag))
    case Ok(b) =>
      var children := if tag == "connection" then ConnectionFrom(data, pos, b.end) else Ok([]);
      if children.Err? then Err(children.error)
      else Ok(Block(Directive(tag, [], line, true, b.text, children.value), b.next))
  }

  method ReadBlock(src: LineSource, tag: string, line: nat) returns (r: Result<Directive, ReadError>)
    requires src.Valid() && !src.buf && src.end == |src.data|
    modifies src
    ensures src.Valid()
    ensures var b := BlockAt(src.data, old(src.pos), tag, line);
      if b.Err? then r == Err(b.error) else r == Ok(b.value.directive) && src.pos == b.value.next
  {
    var bodyStart := src.pos;
    var body := ReadInline(src, "</" + tag + ">");
    if body.Err? {
      return Err(BlockError(body.error, line, tag));
    }
    var d := Directive(tag, [], line, true, body.value.text, []);
    if tag == "connection" {
      var children := ParseConnection(src.data, bodyStart, body.value.end);
      if children.Err? {
        return Err(children.error);
      }
      d := d.(children := children.value);
    }
    return Ok(d);
  }

  /** The directives of the file from pos on. */
  function FileFrom(data: string, pos: nat, first: bool): Result<seq<Directive>, ReadError>
    requires pos <= |data|
    decreases |data| - pos
  {
    var l := Fgets(data, pos, |data|, LINE_SIZE + 1);
    if !l.ok then Ok([])
    else
      var ln := LineNo(data, pos);
      if |l.line| == LINE_SIZE then Err(TooLong(ln))
      else
        match Tokens(Text(l.line, first))
        case Err(e) => Err(BadLine(ln, e))
        case Ok(p) =>
          if p == [] then FileFrom(data, l.next, false)
          else
            match InlineTag(Bare(p))
            case None => Prepend(Plain(p, ln), FileFrom(data, l.next, false))
            case Some(tag) =>
              match BlockAt(data, l.next, tag, ln)
              case Err(e) => Err(e)
              case Ok(b) => Prepend(b.directive, FileFrom(data, b.next, false))
  }

  /** The offset of the first NUL, or the length. */
  function FirstNul(data: string, i: nat): (r: nat)
    requires i <= |data|
    ensures i <= r <= |data| && (r < |data| <==> '\0' in data[i..])
    decreases |data| - i
  {
    if i == |data| then i
    else if data[i] == '\0' then i
    else
      assert data[i..] == [data[i]] + data[i+1..];
      FirstNul(data, i + 1)
  }

  function Parsed(data: string): Result<seq<Directive>, ReadError> {
    var nul := FirstNul(data, 0);
    if nul < |data| then Err(NulByte(LineNo(data, nul))) else FileFrom(data, 0, true)
  }

  method ParseConfig(data: string) returns (r: Result<seq<Directive>, ReadError>)
    ensures r == Parsed(data)
  {
    var nul := FirstNul(data, 0);
    if nul < |data| {
      return Err(NulByte(LineNo(data, nul)));
    }
    r := ReadDirectives(data);
  }

  /** The directive of a line's tokens, with the block that it opens. */
  method ReadDirective(src: LineSource, tokens: seq<string>, ln: nat) returns (r: Result<Directive, ReadError>)
    requires src.Valid() && !src.buf && src.end == |src.data| && tokens != []
    modifies src
    ensures src.Valid()
    ensures match InlineTag(Bare(tokens))
      case None => r == Ok(Plain(tokens, ln)) && src.pos == old(src.pos)
      case Some(tag) =>
        match BlockAt(src.data, old(src.pos), tag, ln)
        case Err(e) => r == Err(e)
        case Ok(b) => r == Ok(b.directive) && src.pos == b.next
  {
    hide InlineTag, BlockAt, BypassDoubleDash;
    var p := tokens[0 := BypassDoubleDash(tokens[0])];
    assert p == Bare(tokens);
    var tag := InlineTag(p);
    if tag.Some? {
      r := ReadBlock(src, tag.value, ln);
    } else {
      r := Ok(Directive(p[0], p[1..], ln, false, "", []));
    }
  }

  method ReadDirectives(data: string) returns (r: Result<seq<Directive>, ReadError>)
    ensures r == FileFrom(data, 0, true)
  {
    var src := new LineSource(data, 0, |data|, false);
    var lc := new LineCounter(data, 0);
    var out: seq<Directive> := [];
    var first := true;
    hide Tokens, LineNo, InlineTag, BypassDoubleDash, BlockAt;
    AppendNothing([], FileFrom(data, 0, true));
    while true
      invariant src.Valid() && lc.Valid() && src.data == data == lc.data && src.end == |data| && !src.buf
      invariant fresh(src) && fresh(lc)
      invariant Append(out, FileFrom(data, src.pos, first)) == FileFrom(data, 0, true)
      decreases |data| - src.pos
    {
      var line, start, ok := src.NextLine(LINE_SIZE + 1);
      if !ok {
        break;
      }
      var ln := lc.At(start);
      if |line| == LINE_SIZE {
        return Err(TooLong(ln));
      }
      if first && BOM <= line {
        line := line[3..];
      }
      first := false;
      var tokens := ParseLine(line);
      if tokens.Err? {
        return Err(BadLine(ln, tokens.error));
      }
      var p := tokens.value;
      if |p| == 0 {
        continue;
      }
      var d := ReadDirective(src, p, ln);
      if d.Err? {
        return Err(d.error);
      }
      AppendPrepend(out, d.value, FileFrom(data, src.pos, false));
      out := out + [d.value];
    }
    AppendNothing(out, Ok([]));
    return Ok(out);
  }
}
