/** The line grammar of the plain text configuration format: escaping of names and values,
    the token iterator, and the parser of one line. */
module ConfigText {
  import opened Wrappers

  datatype ParseError =
    | TrailingBackslash
    | MissingQuote
    | ExpectedSeparator
    | MissingName
    | UnexpectedAfterColon
    | UnexpectedAfterValue

  /** The value of a setting line. */
  datatype Value = Absent | Text(s: string) | List(items: seq<string>)

  /** A parsed line; blank lines and comments carry no name. */
  datatype Line = Blank(indentation: nat) | Section(indentation: nat, name: string)
                | Setting(indentation: nat, name: string, value: Value)

  // ---------------------------------------------------------------- characters

  /** White space removed by stripping the undecoded bytes of a line. */
  predicate IsAsciiSpace(c: char) {
    c in " \t\n\r" || c == '\U{0B}' || c == '\U{0C}'
  }

  /** White space of decoded text. */
  predicate IsSpace(c: char) {
    || IsAsciiSpace(c)
    || '\U{1C}' <= c <= '\U{1F}'
    || c == '\U{85}' || c == '\U{A0}' || c == '\U{1680}' || c == '\U{180E}'
    || '\U{2000}' <= c <= '\U{200A}'
    || c == '\U{2028}' || c == '\U{2029}' || c == '\U{202F}' || c == '\U{205F}' || c == '\U{3000}'
  }

  /** The characters whose presence forces a string to be quoted. */
  predicate IsEscapeChar(c: char) {
    c in ",\"'=: #\\\t\n\r" || c == '\U{0B}' || c == '\U{0C}'
  }

  predicate HasEscapeChar(s: string) {
    exists c :: c in s && IsEscapeChar(c)
  }

  predicate HasSpace(s: string) {
    exists c :: c in s && IsSpace(c)
  }

  /** A string the format can carry: white space that does not force quoting survives only
      in a string that is quoted for another reason. */
  predicate Representable(s: string) {
    HasEscapeChar(s) || !HasSpace(s)
  }

  // ---------------------------------------------------------------- escaping

  function ReplaceAll(s: string, c: char, with: string): string {
    if s == [] then [] else (if s[0] == c then with else [s[0]]) + ReplaceAll(s[1..], c, with)
  }

  /** The four substitutions made inside quotes, in the order they are made. */
  function Substituted(value: string): string {
    ReplaceAll(ReplaceAll(ReplaceAll(ReplaceAll(value, '\\', "\\\\"), '"', "\\\""), '\n', "\\n"), '\r', "\\r")
  }

  function Escape(value: string): string {
    if value == "" then "\"\""
    else if HasEscapeChar(value) then "\"" + Substituted(value) + "\""
    else value
  }

  function EscapedChar(c: char): string {
    if c == '\\' then "\\\\" else if c == '"' then "\\\"" else if c == '\n' then "\\n" else if c == '\r' then "\\r"
        else [c]
  }

  function EscapedBody(s: string): string {
    if s == [] then [] else EscapedChar(s[0]) + EscapedBody(s[1..])
  }

  lemma {:induction false} ReplaceAllConcat(a: string, b: string, c: char, with: string)
    ensures ReplaceAll(a + b, c, with) == ReplaceAll(a, c, with) + ReplaceAll(b, c, with)
  {
    if a == [] {
      assert a + b == b;
    } else {
      assert (a + b)[1..] == a[1..] + b;
      ReplaceAllConcat(a[1..], b, c, with);
    }
  }

  lemma ReplaceShort(s: string, c: char, with: string)
    requires 1 <= |s| <= 2
    ensures ReplaceAll(s, c, with) ==
            (if s[0] == c then with else [s[0]]) + (if |s| == 1 then [] else if s[1] == c then with else [s[1]])
  {
    var rest := s[1..];
    assert |s| == 2 ==>
      ReplaceAll(rest, c, with) == (if s[1] == c then with else [s[1]]) + ReplaceAll(rest[1..], c, with);
  }

  lemma SubstitutedChar(c: char)
    ensures Substituted([c]) == EscapedChar(c)
  {
    var s1 := ReplaceAll([c], '\\', "\\\\");
    assert s1 == if c == '\\' then "\\\\" else [c] by { ReplaceShort([c], '\\', "\\\\"); }
    var s2 := ReplaceAll(s1, '"', "\\\"");
    assert s2 == if c == '"' then "\\\"" else s1 by { ReplaceShort(s1, '"', "\\\""); }
    var s3 := ReplaceAll(s2, '\n', "\\n");
    assert s3 == if c == '\n' then "\\n" else s2 by { ReplaceShort(s2, '\n', "\\n"); }
    ReplaceShort(s3, '\r', "\\r");
  }

  lemma SubstitutedConcat(a: string, b: string)
    ensures Substituted(a + b) == Substituted(a) + Substituted(b)
  {
    ReplaceAllConcat(a, b, '\\', "\\\\");
    var a1, b1 := ReplaceAll(a, '\\', "\\\\"), ReplaceAll(b, '\\', "\\\\");
    ReplaceAllConcat(a1, b1, '"', "\\\"");
    var a2, b2 := ReplaceAll(a1, '"', "\\\""), ReplaceAll(b1, '"', "\\\"");
    ReplaceAllConcat(a2, b2, '\n', "\\n");
    ReplaceAllConcat(ReplaceAll(a2, '\n', "\\n"), ReplaceAll(b2, '\n', "\\n"), '\r', "\\r");
  }

  /** The four successive substitutions act as one substitution of each character: none
      rewrites what an earlier one produced. */
  lemma {:induction false} SubstitutionIsCharwise(s: string)
    ensures Substituted(s) == EscapedBody(s)
  {
    if s != [] {
      assert s == [s[0]] + s[1..];
      SubstitutedConcat([s[0]], s[1..]);
      SubstitutedChar(s[0]);
      SubstitutionIsCharwise(s[1..]);
    }
  }

  // ---------------------------------------------------------------- tokens

  function RStrip(s: string): (r: string)
    ensures r <= s
  {
    if s != [] && IsAsciiSpace(s[|s| - 1]) then RStrip(s[..|s| - 1]) else s
  }

  function LeadingSpaces(line: string): (n: nat)
    ensures n <= |line|
  {
    if line != [] && IsSpace(line[0]) then 1 + LeadingSpaces(line[1..]) else 0
  }

  /** What is left of a line after white space, nothing if a comment starts there. */
  function Advance(line: string): (r: string)
    ensures |r| <= |line|
  {
    var rest := line[LeadingSpaces(line)..];
    if rest != [] && rest[0] == '#' then [] else rest
  }

  function Prepend(text: string, r: Result<(string, string), ParseError>): (p: Result<(string, string), ParseError>)
    ensures text == "" ==> p == r
  {
    assert r.Ok? ==> [] + r.value.0 == r.value.0;
    match r
    case Ok(p) => Ok((text + p.0, p.1))
    case Err(e) => Err(e)
  }

  function Unescaped(c: char): char {
    if c == 'n' then '\n' else if c == 'r' then '\r' else c
  }

  /** The text of the token a line starts with, and the rest of the line; `quote` is the
      quote character the scan is inside of. */
  function Token(line: string, delimiter: string, quote: Option<char>): (r: Result<(string, string), ParseError>)
    ensures r.Ok? ==> |r.value.1| <= |line|
    decreases |line|
  {
    if line == [] then
      if quote.Some? then Err(MissingQuote) else Ok(("", []))
    else if quote.None? && line[0] in delimiter then Ok(("", line))
    else
      var c, rest := line[0], line[1..];
      if c in "'\"" then
        if quote.None? then Token(rest, delimiter, Some(c))
        else if quote.value == c then Token(rest, delimiter, None)
        else Prepend([c], Token(rest, delimiter, quote))
      else if c == '\\' then
        if rest == [] then Err(TrailingBackslash)
        else Prepend([Unescaped(rest[0])], Token(rest[1..], delimiter, quote))
      else if quote.None? && c == '#' then Ok(("", []))
      else if quote.None? && IsSpace(c) then Ok(("", rest))
      else Prepend([c], Token(rest, delimiter, quote))
  }

  /** The value part of a setting line; `items` holds the list items read so far. */
  function Values(line: string, items: Option<seq<string>>): Result<Value, ParseError>
    decreases |line|
  {
    match Token(line, ",", None)
    case Err(e) => Err(e)
    case Ok(p) =>
      var rest := Advance(p.1);
      if rest == [] then
        Ok(if items.Some? then List(items.value + [p.0]) else Text(p.0))
      else if rest[0] != ',' then Err(UnexpectedAfterValue)
      else
        var more := (if items.Some? then items.value else []) + [p.0];
        var next := Advance(rest[1..]);
        if next == [] then Ok(List(more)) else Values(next, Some(more))
  }

  /** The meaning of one line of a configuration file. */
  function LineOf(raw: string): Result<Line, ParseError> {
    var stripped := RStrip(raw);
    var indentation := LeadingSpaces(stripped);
    var line := Advance(stripped);
    if line == [] then Ok(Blank(indentation))
    else
      match Token(line, ":=", None)
      case Err(e) => Err(e)
      case Ok(p) =>
        var (name, rest) := (p.0, Advance(p.1));
        if rest == [] || rest[0] !in ":=" then Err(ExpectedSeparator)
        else if name == "" then Err(MissingName)
        else
          var value := Advance(rest[1..]);
          if value == [] then
            Ok(if rest[0] == ':' then Section(indentation, name) else Setting(indentation, name, Absent))
          else if rest[0] == ':' then Err(UnexpectedAfterColon)
          else match Values(value, None)
            case Err(e) => Err(e)
            case Ok(v) => Ok(Setting(indentation, name, v))
  }

  // ---------------------------------------------------------------- the parser

  /** The character queue a line is parsed from, consumed from its front. */
  class LineBuffer {
    var chars: string

    constructor (line: string)
      ensures chars == line
    {
      chars := line;
    }

    method AdvanceToNextToken() returns (counter: nat)
      modifies this
      ensures counter == LeadingSpaces(old(chars)) && chars == Advance(old(chars))
    {
      counter := 0;
      while chars != [] && IsSpace(chars[0])
        invariant counter <= |old(chars)| && chars == old(chars)[counter..]
        invariant counter + LeadingSpaces(chars) == LeadingSpaces(old(chars))
        decreases |chars|
      {
        chars := chars[1..];
        counter := counter + 1;
      }
      if chars != [] && chars[0] == '#' {
        chars := [];
      }
    }

    method NextToken(delimiter: string) returns (r: Result<string, ParseError>)
      modifies this
      ensures match Token(old(chars), delimiter, None)
              case Ok(p) => r == Ok(p.0) && chars == p.1
              case Err(e) => r == Err(e)
      ensures |chars| <= old(|chars|)
    {
      var quote: Option<char> := None;
      var text: string := [];
      while chars != []
        invariant |chars| <= old(|chars|)
        invariant Token(old(chars), delimiter, None) == Prepend(text, Token(chars, delimiter, quote))
        decreases |chars|
      {
        if quote.None? && chars[0] in delimiter {
          break;
        }
        var c := chars[0];
        chars := chars[1..];
        if c in "'\"" {
          if quote.None? {
            quote := Some(c);
          } else if quote.value == c {
            quote := None;
          } else {
            PrependPrepend(text, [c], Token(chars, delimiter, quote));
            text := text + [c];
          }
        } else if c == '\\' {
          if chars == [] {
            return Err(TrailingBackslash);
          }
          c := chars[0];
          chars := chars[1..];
          if c == 'n' {
            PrependPrepend(text, ['\n'], Token(chars, delimiter, quote));
            text := text + ['\n'];
          } else if c == 'r' {
            PrependPrepend(text, ['\r'], Token(chars, delimiter, quote));
            text := text + ['\r'];
          } else {
            PrependPrepend(text, [c], Token(chars, delimiter, quote));
            text := text + [c];
          }
        } else if quote.None? && c == '#' {
          chars := [];
          assert text + "" == text;
          break;
        } else if quote.None? && IsSpace(c) {
          assert text + "" == text;
          return Ok(text);
        } else {
          PrependPrepend(text, [c], Token(chars, delimiter, quote));
          text := text + [c];
        }
      }
      if quote.Some? {
        return Err(MissingQuote);
      }
      assert text + "" == text;
      return Ok(text);
    }
  }

  method ParseLine(raw: string) returns (r: Result<Line, ParseError>)
    ensures r == LineOf(raw)
  {
    var line := new LineBuffer(RStrip(raw));
    var indentation := line.AdvanceToNextToken();
    if line.chars == [] {
      return Ok(Blank(indentation));
    }
    var token := line.NextToken(":=");
    if token.Err? {
      return Err(token.error);
    }
    var name := token.value;
    var _ := line.AdvanceToNextToken();
    if line.chars == [] || line.chars[0] !in ":=" {
      return Err(ExpectedSeparator);
    }
    if name == "" {
      return Err(MissingName);
    }
    var separator := line.chars[0];
    line.chars := line.chars[1..];
    var _ := line.AdvanceToNextToken();
    if line.chars == [] {
      return Ok(if separator == ':' then Section(indentation, name) else Setting(indentation, name, Absent));
    } else if separator == ':' {
      return Err(UnexpectedAfterColon);
    }
    var value := "";
    var items: Option<seq<string>> := None;
    ghost var rest := line.chars;
    while line.chars != []
      invariant line.chars != [] ==> Values(rest, None) == Values(line.chars, items)
      invariant line.chars == [] ==> Values(rest, None) == Ok(if items.Some? then List(items.value) else Text(value))
      decreases |line.chars|
    {
      var token := line.NextToken(",");
      if token.Err? {
        return Err(token.error);
      }
      value := token.value;
      var _ := line.AdvanceToNextToken();
      if line.chars != [] {
        if line.chars[0] == ',' {
          line.chars := line.chars[1..];
          var _ := line.AdvanceToNextToken();
          if items.None? {
            items := Some([]);
          }
        } else {
          return Err(UnexpectedAfterValue);
        }
      }
      if items.Some? {
        items := Some(items.value + [value]);
      }
    }
    return Ok(Setting(indentation, name, if items.Some? then List(items.value) else Text(value)));
  }

  // ---------------------------------------------------------------- escape and token are inverse

  lemma {:induction false} PrependPrepend(a: string, b: string, r: Result<(string, string), ParseError>)
    ensures Prepend(a, Prepend(b, r)) == Prepend(a + b, r)
  {
    if r.Ok? {
      assert a + (b + r.value.0) == (a + b) + r.value.0;
    }
  }

  lemma {:induction false} TokenOfBody(s: string, rest: string, delimiter: string)
    ensures Token(EscapedBody(s) + "\"" + rest, delimiter, Some('"')) == Prepend(s, Token(rest, delimiter, None))
  {
    var line := EscapedBody(s) + "\"" + rest;
    if s == [] {
      assert line[0] == '"' && line[1..] == rest;
    } else {
      var e := EscapedChar(s[0]);
      var tail := EscapedBody(s[1..]) + "\"" + rest;
      assert line == e + tail;
      assert line[|e|..] == tail;
      TokenOfBody(s[1..], rest, delimiter);
      if |e| == 2 {
        assert line[0] == '\\' && line[1] == e[1] && line[1..][0] == e[1] && line[1..][1..] == tail;
      } else {
        assert line[0] == s[0] && line[1..] == tail;
      }
      assert Token(line, delimiter, Some('"')) == Prepend([s[0]], Token(tail, delimiter, Some('"')));
      PrependPrepend([s[0]], s[1..], Token(rest, delimiter, None));
      assert [s[0]] + s[1..] == s;
    }
  }

  lemma {:induction false} TokenOfPlain(s: string, rest: string, delimiter: string)
    requires !HasEscapeChar(s) && !HasSpace(s)
    requires forall c :: c in delimiter ==> IsEscapeChar(c)
    ensures Token(s + rest, delimiter, None) == Prepend(s, Token(rest, delimiter, None))
  {
    if s == [] {
      assert s + rest == rest;
    } else {
      assert s[0] in s && !IsEscapeChar(s[0]) && !IsSpace(s[0]);
      assert (s + rest)[1..] == s[1..] + rest;
      assert forall c :: c in s[1..] ==> c in s;
      TokenOfPlain(s[1..], rest, delimiter);
      PrependPrepend([s[0]], s[1..], Token(rest, delimiter, None));
      assert [s[0]] + s[1..] == s;
    }
  }

  lemma TokenOfQuoted(body: string, s: string, rest: string, delimiter: string)
    requires body == EscapedBody(s)
    requires forall c :: c in delimiter ==> c !in "'\""
    ensures Token("\"" + body + "\"" + rest, delimiter, None) == Prepend(s, Token(rest, delimiter, None))
  {
    var line := "\"" + body + "\"" + rest;
    assert line[0] == '"' && line[1..] == body + "\"" + rest;
    assert Token(line, delimiter, None) == Token(line[1..], delimiter, Some('"'));
    hide Token, EscapedBody;
    TokenOfBody(s, rest, delimiter);
  }

  lemma EscapeNothing()
    ensures Escape("") == "\"\""
  {
  }

  /** Scanning an escaped string yields the string, whatever follows it on the line. */
  lemma TokenOfEscape(s: string, rest: string, delimiter: string)
    requires Representable(s)
    requires forall c :: c in delimiter ==> IsEscapeChar(c) && c !in "'\""
    ensures Token(Escape(s) + rest, delimiter, None) == Prepend(s, Token(rest, delimiter, None))
  {
    if s == "" {
      assert EscapedBody("") == "";
      hide *;
      TokenOfQuoted("", s, rest, delimiter);
      EscapeNothing();
      assert "\"" + "" + "\"" == "\"\"";
    } else if HasEscapeChar(s) {
      hide Token, EscapedBody, IsEscapeChar, Substituted, HasSpace;
      SubstitutionIsCharwise(s);
      TokenOfQuoted(Substituted(s), s, rest, delimiter);
    } else {
      TokenOfPlain(s, rest, delimiter);
    }
  }

  lemma EscapeEnds(s: string)
    requires Representable(s)
    ensures Escape(s) != [] && !IsSpace(Escape(s)[0]) && Escape(s)[0] != '#' && Escape(s)[0] !in ",:="
  {
    if s != "" && !HasEscapeChar(s) {
      assert s[0] in s;
    }
  }

  lemma EscapeLast(s: string)
    ensures Escape(s) != [] && !IsAsciiSpace(Escape(s)[|Escape(s)| - 1])
  {
    if s != "" && !HasEscapeChar(s) {
      assert s[|s| - 1] in s;
    }
  }
}
