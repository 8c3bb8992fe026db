// How openvpn splits a line into parameters, and how the management client
// quotes one (internal/ovpn/parse.go, internal/ovpn/management.go). A char
// stands for one byte.
module Tokenizer {
  import opened Common

  const PARM_SIZE := 256
  const MAX_PARMS := 16

  datatype LineError = BadBackslash | ParameterTooLong | NoClosingQuote | NoClosingSingleQuote | ResidualState

  datatype State = Initial | InQuotes | Unquoted | Done | InSingleQuotes

  /** isspace() in the C locale. */
  predicate IsSpace(c: char) {
    c == ' ' || c == '\t' || c == '\n' || c == '\U{0B}' || c == '\U{0C}' || c == '\r'
  }

  // ---- one character ----

  /** The scanner between two characters. */
  datatype Scan = Scan(state: State, backslash: bool, parm: string, ret: seq<string>)

  datatype Verdict = More(next: Scan) | Comment | Fail(error: LineError)

  const START := Scan(Initial, false, "", [])

  predicate Escapes(s: Scan, c: char) { !s.backslash && c == '\\' && s.state != InSingleQuotes }

  /** The state after c, and what c adds to the parameter (NUL: nothing). */
  function Shift(s: Scan, c: char): (State, char) {
    match s.state
    case Initial =>
      if c == '\0' || IsSpace(c) then (Initial, '\0')
      else if !s.backslash && c == '"' then (InQuotes, '\0')
      else if !s.backslash && c == '\'' then (InSingleQuotes, '\0')
      else (Unquoted, c)
    case Unquoted => if !s.backslash && (c == '\0' || IsSpace(c)) then (Done, '\0') else (Unquoted, c)
    case InQuotes => if !s.backslash && c == '"' then (Done, '\0') else (InQuotes, c)
    case InSingleQuotes => if c == '\'' then (Done, '\0') else (InSingleQuotes, c)
    case Done => (Done, '\0')
  }

  predicate Escapable(c: char) { c == '\\' || c == '"' || IsSpace(c) }

  function Feed(s: Scan, c: char): Verdict {
    if Escapes(s, c) then More(s.(backslash := true))
    else if s.state == Initial && (c == ';' || c == '#') then Comment
    else
      var (state, out) := Shift(s, c);
      if s.backslash && out != '\0' && !Escapable(out) then Fail(BadBackslash)
      else if out != '\0' && |s.parm| >= PARM_SIZE then Fail(ParameterTooLong)
      else if state == Done then More(Scan(Initial, false, "", s.ret + [s.parm]))
      else More(Scan(state, false, if out != '\0' then s.parm + [out] else s.parm, s.ret))
  }

  function Finish(s: Scan): Result<seq<string>, LineError> {
    match s.state
    case Initial => Ok(s.ret)
    case InQuotes => Err(NoClosingQuote)
    case InSingleQuotes => Err(NoClosingSingleQuote)
    case _ => Err(ResidualState)
  }

  /** The tokens found in the rest of the line and its terminating NUL; tokens beyond the sixteenth are dropped. */
  function Scanned(s: Scan, rest: string): Result<seq<string>, LineError>
    decreases |rest|
  {
    match Feed(s, if rest == "" then '\0' else rest[0])
    case Comment => Finish(s)
    case Fail(error) => Err(error)
    case More(next) =>
      if |next.ret| >= MAX_PARMS || rest == "" then Finish(next) else Scanned(next, rest[1..])
  }

  function Tokens(line: string): Result<seq<string>, LineError> { Scanned(START, line) }

  method ParseLine(line: string) returns (r: Result<seq<string>, LineError>)
    ensures r == Tokens(line)
  {
    var ret: seq<string>, state, backslash, parm := [], Initial, false, "";
    var i := 0;
    while true
      invariant i <= |line|
      invariant Tokens(line) == Scanned(Scan(state, backslash, parm, ret), line[i..])
      decreases |line| - i
    {
      var c := if i < |line| then line[i] else '\0';
      var out := '\0';
      if !backslash && c == '\\' && state != InSingleQuotes {
        backslash := true;
      } else {
        match state {
          case Initial =>
            if !(c == '\0' || IsSpace(c)) {
              if c == ';' || c == '#' {
                break;
              }
              if !backslash && c == '"' {
                state := InQuotes;
              } else if !backslash && c == '\'' {
                state := InSingleQuotes;
              } else {
                out := c;
                state := Unquoted;
              }
            }
          case Unquoted =>
            if !backslash && (c == '\0' || IsSpace(c)) {
              state := Done;
            } else {
              out := c;
            }
          case InQuotes =>
            if !backslash && c == '"' {
              state := Done;
            } else {
              out := c;
            }
          case InSingleQuotes =>
            if c == '\'' {
              state := Done;
            } else {
              out := c;
            }
          case Done =>
        }
        if state == Done {
          ret := ret + [parm];
          parm := "";
          state := Initial;
        }
        if backslash && out != '\0' && !(out == '\\' || out == '"' || IsSpace(out)) {
          return Err(BadBackslash);
        }
        backslash := false;
      }
      if out != '\0' {
        if |parm| >= PARM_SIZE {
          return Err(ParameterTooLong);
        }
        parm := parm + [out];
      }
      if |ret| >= MAX_PARMS || i >= |line| {
        break;
      }
      i := i + 1;
    }
    match state {
      case InQuotes => return Err(NoClosingQuote);
      case InSingleQuotes => return Err(NoClosingSingleQuote);
      case Initial => return Ok(ret);
      case _ => return Err(ResidualState);
    }
  }

  // ---- quoting ----

  function ReplaceAll(s: string, c: char, with: string): string {
    if s == "" then "" else (if s[0] == c then with else [s[0]]) + ReplaceAll(s[1..], c, with)
  }

  function MgmtQuote(s: string): string {
    "\"" + ReplaceAll(ReplaceAll(s, '\\', "\\\\"), '"', "\\\"") + "\""
  }

  datatype CredentialError = IllegalNewline

  /** The lines that answer a request for credentials. */
  method SendCredentials(username: string, password: string) returns (r: Result<seq<string>, CredentialError>)
    ensures r.Err? <==> '\r' in username || '\n' in username || '\r' in password || '\n' in password
    ensures r.Ok? ==> r.value == [CredentialLine("username", username), CredentialLine("password", password)]
  {
    if '\r' in username || '\n' in username || '\r' in password || '\n' in password {
      return Err(IllegalNewline);
    }
    assert "username" + " \"Auth\" " == "username \"Auth\" " && "password" + " \"Auth\" " == "password \"Auth\" ";
    return Ok(["username \"Auth\" " + MgmtQuote(username), "password \"Auth\" " + MgmtQuote(password)]);
  }

  function CredentialLine(command: string, value: string): string { command + " \"Auth\" " + MgmtQuote(value) }

  /** What a C string can carry of s. */
  function WithoutNul(s: string): string {
    if s == "" then "" else (if s[0] == '\0' then "" else [s[0]]) + WithoutNul(s[1..])
  }

  function EscapedChar(c: char): string { if c == '\\' || c == '"' then ['\\', c] else [c] }

  /** Every backslash and double quote behind a backslash. */
  function Escaped(s: string): string {
    if s == "" then "" else EscapedChar(s[0]) + Escaped(s[1..])
  }

  lemma {:induction false} ReplaceAllConcat(a: string, b: string, c: char, with: string)
    ensures ReplaceAll(a + b, c, with) == ReplaceAll(a, c, with) + ReplaceAll(b, c, with)
  {
    if a == "" {
      assert a + b == b;
    } else {
      assert (a + b)[1..] == a[1..] + b;
      ReplaceAllConcat(a[1..], b, c, with);
    }
  }

  lemma {:induction false} QuoteEscapes(s: string)
    ensures ReplaceAll(ReplaceAll(s, '\\', "\\\\"), '"', "\\\"") == Escaped(s)
  {
    if s != "" {
      var head := if s[0] == '\\' then "\\\\" else [s[0]];
      ReplaceAllConcat(head, ReplaceAll(s[1..], '\\', "\\\\"), '"', "\\\"");
      assert "\\\\"[1..] == "\\" && "\\"[1..] == "";
      assert [s[0]][1..] == "";
      QuoteEscapes(s[1..]);
    }
  }

  /** Inside the quotes, the scanner undoes the escaping of a character, and drops NUL. */
  lemma QuotedChar(c: char, parm: string, ret: seq<string>, tail: string)
    requires |parm| <= PARM_SIZE && |ret| < MAX_PARMS - 1
    ensures var here := Scan(InQuotes, false, parm, ret);
      Scanned(here, EscapedChar(c) + tail) ==
      if c == '\0' then Scanned(here, tail)
      else if |parm| == PARM_SIZE then Err(ParameterTooLong)
      else Scanned(here.(parm := parm + [c]), tail)
  {
    var here := Scan(InQuotes, false, parm, ret);
    var line := EscapedChar(c) + tail;
    if c == '\\' || c == '"' {
      assert line[0] == '\\' && line[1..] == [c] + tail && line[1..][1..] == tail;
      assert Scanned(here, line) == Scanned(here.(backslash := true), line[1..]);
    } else {
      assert line[0] == c && line[1..] == tail;
    }
  }

  /** Inside the quotes, the scanner gives back what was escaped, or runs out of room. */
  lemma {:induction false} QuotedTail(s: string, parm: string, ret: seq<string>, rest: string)
    requires |parm| <= PARM_SIZE && |ret| < MAX_PARMS - 1
    ensures Scanned(Scan(InQuotes, false, parm, ret), Escaped(s) + "\"" + rest) ==
            if |parm| + |WithoutNul(s)| > PARM_SIZE then Err(ParameterTooLong)
            else Scanned(Scan(Initial, false, "", ret + [parm + WithoutNul(s)]), rest)
  {
    if s == "" {
      var line := Escaped(s) + "\"" + rest;
      assert line[0] == '"' && line[1..] == rest;
      assert parm + WithoutNul(s) == parm;
    } else {
      var tail := Escaped(s[1..]) + "\"" + rest;
      assert Escaped(s) + "\"" + rest == EscapedChar(s[0]) + tail;
      QuotedChar(s[0], parm, ret, tail);
      hide Scanned, Escaped, EscapedChar;
      if s[0] == '\0' {
        assert WithoutNul(s) == WithoutNul(s[1..]);
        QuotedTail(s[1..], parm, ret, rest);
      } else {
        assert WithoutNul(s) == [s[0]] + WithoutNul(s[1..]);
        if |parm| < PARM_SIZE {
          QuotedTail(s[1..], parm + [s[0]], ret, rest);
          assert parm + [s[0]] + WithoutNul(s[1..]) == parm + WithoutNul(s);
        }
      }
    }
  }

  /** An unquoted word up to the space that ends it. */
  lemma {:induction false} Word(w: string, parm: string, ret: seq<string>, rest: string)
    requires parm != "" && |parm| + |w| <= PARM_SIZE && |ret| < MAX_PARMS - 1
    requires forall c | c in w :: c != '\0' && c != '\\' && !IsSpace(c)
    ensures Scanned(Scan(Unquoted, false, parm, ret), w + " " + rest) == Scanned(Scan(Initial, false, "", ret + [parm + w]), rest)
  {
    var line := w + " " + rest;
    if w == "" {
      assert line[0] == ' ' && line[1..] == rest && parm + w == parm;
    } else {
      assert w[0] in w && forall c | c in w[1..] :: c in w;
      assert line[0] == w[0] && line[1..] == w[1..] + " " + rest;
      Word(w[1..], parm + [w[0]], ret, rest);
      assert parm + [w[0]] + w[1..] == parm + w;
    }
  }

  predicate IsCommand(command: string) {
    0 < |command| <= PARM_SIZE && forall c | c in command :: 'a' <= c <= 'z'
  }

  lemma CommandWord(command: string, rest: string)
    requires IsCommand(command)
    ensures Tokens(command + " " + rest) == Scanned(Scan(Initial, false, "", [command]), rest)
  {
    var line := command + " " + rest;
    assert command[0] in command && forall c | c in command[1..] :: c in command;
    Starts(command[0], line[1..]);
    hide Scanned;
    assert line == [command[0]] + line[1..] && line[1..] == command[1..] + " " + rest;
    Word(command[1..], [command[0]], [], rest);
    assert [command[0]] + command[1..] == command && [] + [command] == [command];
  }

  lemma Starts(c: char, rest: string)
    requires 'a' <= c <= 'z'
    ensures Scanned(START, [c] + rest) == Scanned(Scan(Unquoted, false, [c], []), rest)
  {
    assert "" + [c] == [c] && ([c] + rest)[1..] == rest;
  }

  lemma QuotedWord(value: string, ret: seq<string>, rest: string)
    requires |ret| < MAX_PARMS - 1
    ensures Scanned(Scan(Initial, false, "", ret), MgmtQuote(value) + rest) ==
            if |WithoutNul(value)| > PARM_SIZE then Err(ParameterTooLong)
            else Scanned(Scan(Initial, false, "", ret + [WithoutNul(value)]), rest)
  {
    var line := MgmtQuote(value) + rest;
    QuoteEscapes(value);
    assert line[0] == '"' && line[1..] == Escaped(value) + "\"" + rest;
    QuotedTail(value, "", ret, rest);
    assert "" + WithoutNul(value) == WithoutNul(value);
  }

  lemma SpaceSkipped(ret: seq<string>, rest: string)
    requires |ret| < MAX_PARMS
    ensures Scanned(Scan(Initial, false, "", ret), " " + rest) == Scanned(Scan(Initial, false, "", ret), rest)
  {
    assert (" " + rest)[1..] == rest;
  }

  lemma AuthQuotes()
    ensures MgmtQuote("Auth") == "\"Auth\"" && WithoutNul("Auth") == "Auth"
  {
    assert "Auth"[1..] == "uth" && "uth"[1..] == "th" && "th"[1..] == "h" && "h"[1..] == "";
    QuoteEscapes("Auth");
  }

  lemma LineEnds(ret: seq<string>)
    ensures Scanned(Scan(Initial, false, "", ret), "") == Ok(ret)
  {}

  lemma QuotedWords(command: string, kind: string, value: string)
    requires IsCommand(command) && |WithoutNul(kind)| <= PARM_SIZE
    ensures Tokens(command + " " + (MgmtQuote(kind) + (" " + MgmtQuote(value)))) ==
            if |WithoutNul(value)| > PARM_SIZE then Err(ParameterTooLong)
            else Ok([command, WithoutNul(kind), WithoutNul(value)])
  {
    LineEnds([command] + [WithoutNul(kind)] + [WithoutNul(value)]);
    hide MgmtQuote, WithoutNul, Scanned, Tokens, IsCommand;
    var rest := " " + MgmtQuote(value);
    CommandWord(command, MgmtQuote(kind) + rest);
    QuotedWord(kind, [command], rest);
    SpaceSkipped([command] + [WithoutNul(kind)], MgmtQuote(value));
    QuotedWord(value, [command] + [WithoutNul(kind)], "");
    assert MgmtQuote(value) + "" == MgmtQuote(value);
    assert [command] + [WithoutNul(kind)] + [WithoutNul(value)] == [command, WithoutNul(kind), WithoutNul(value)];
  }

  lemma LineShape(command: string, auth: string, quoted: string)
    requires auth == "\"Auth\""
    ensures command + " \"Auth\" " + quoted == command + " " + (auth + (" " + quoted))
  {
    assert " \"Auth\" " == " " + "\"Auth\"" + " ";
  }

  /**
   * The line for a command and a value reads back as the command, "Auth" and the
   * value, or is refused when the value is longer than a parameter may be.
   */
  lemma CredentialsReadBack(command: string, value: string)
    requires IsCommand(command)
    ensures Tokens(CredentialLine(command, value)) ==
            if |WithoutNul(value)| > PARM_SIZE then Err(ParameterTooLong) else Ok([command, "Auth", WithoutNul(value)])
  {
    var auth := MgmtQuote("Auth");
    AuthQuotes();
    LineShape(command, auth, MgmtQuote(value));
    QuotedWords(command, "Auth", value);
  }

  /** NUL-free credentials of at most 256 bytes come back exactly as they were. */
  lemma QuotingRoundTrip(value: string)
    requires '\0' !in value
    ensures |value| <= PARM_SIZE <==> Tokens(CredentialLine("username", value)) == Ok(["username", "Auth", value])
    ensures |value| <= PARM_SIZE <==> Tokens(CredentialLine("password", value)) == Ok(["password", "Auth", value])
  {
    NulFree(value);
    CredentialsReadBack("username", value);
    CredentialsReadBack("password", value);
  }

  lemma {:induction false} NulFree(s: string)
    requires '\0' !in s
    ensures WithoutNul(s) == s
  {
    if s != "" {
      NulFree(s[1..]);
    }
  }
}
