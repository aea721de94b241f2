/** What a line of a configuration file means, told from the way it is written: tokens made of
    bare, escaped and quoted characters, white space between them, and comments. */
module ConfigGrammar {
  import opened Wrappers
  import opened ConfigText
  import opened ConfigFile

  // ---------------------------------------------------------------- how a token is written

  /** A character inside quotes: itself, or behind a backslash. */
  datatype Mark = Self(c: char) | Escaped(c: char)

  /** A piece of a token: a bare character, one behind a backslash, or a quoted part. */
  datatype Piece = Bare(c: char) | Slashed(c: char) | Quoted(quote: char, body: seq<Mark>)

  /** The character that a backslash and a letter stand for. */
  function Meant(c: char): char {
    if c == 'n' then '\n' else if c == 'r' then '\r' else c
  }

  function BodyWritten(body: seq<Mark>): string {
    if body == [] then ""
    else (if body[0].Self? then [body[0].c] else ['\\', body[0].c]) + BodyWritten(body[1..])
  }

  function BodyText(body: seq<Mark>): string {
    if body == [] then ""
    else [if body[0].Self? then body[0].c else Meant(body[0].c)] + BodyText(body[1..])
  }

  function PieceWritten(p: Piece): string {
    match p
    case Bare(c) => [c]
    case Slashed(c) => ['\\', c]
    case Quoted(quote, body) => [quote] + BodyWritten(body) + [quote]
  }

  function PieceText(p: Piece): string {
    match p
    case Bare(c) => [c]
    case Slashed(c) => [Meant(c)]
    case Quoted(_, body) => BodyText(body)
  }

  function Written(pieces: seq<Piece>): string {
    if pieces == [] then "" else PieceWritten(pieces[0]) + Written(pieces[1..])
  }

  function Text(pieces: seq<Piece>): string {
    if pieces == [] then "" else PieceText(pieces[0]) + Text(pieces[1..])
  }

  /** The marks of a part quoted by `quote` do not end it. */
  predicate ProperBody(quote: char, body: seq<Mark>) {
    forall i :: 0 <= i < |body| ==> (body[i].Self? ==> body[i].c != quote && body[i].c != '\\')
  }

  predicate ProperPiece(p: Piece, delimiter: string) {
    match p
    case Bare(c) => c != '\'' && c != '"' && c != '\\' && c != '#' && !IsSpace(c) && c !in delimiter
    case Slashed(_) => true
    case Quoted(quote, body) => (quote == '\'' || quote == '"') && ProperBody(quote, body)
  }

  predicate Proper(pieces: seq<Piece>, delimiter: string) {
    forall i :: 0 <= i < |pieces| ==> ProperPiece(pieces[i], delimiter)
  }

  predicate IsDelimiter(delimiter: string) {
    delimiter == ":=" || delimiter == ","
  }

  lemma QuotedFirst(m: Mark, quote: char, tail: string, delimiter: string)
    requires m.Self? ==> m.c != quote && m.c != '\\'
    requires quote == '\'' || quote == '"'
    ensures var first := if m.Self? then [m.c] else ['\\', m.c];
            Token(first + tail, delimiter, Some(quote)) ==
              Prepend([if m.Self? then m.c else Meant(m.c)], Token(tail, delimiter, Some(quote)))
  {
    var first := if m.Self? then [m.c] else ['\\', m.c];
    var line := first + tail;
    if m.Self? {
      assert line[0] == m.c && line[1..] == tail;
    } else {
      assert line[0] == '\\' && line[1..][0] == m.c && line[1..][1..] == tail;
    }
  }

  lemma {:induction false} QuotedMeans(quote: char, body: seq<Mark>, tail: string, delimiter: string)
    requires (quote == '\'' || quote == '"') && ProperBody(quote, body)
    ensures Token(BodyWritten(body) + tail, delimiter, Some(quote)) ==
              Prepend(BodyText(body), Token(tail, delimiter, Some(quote)))
    decreases |body|
  {
    if body == [] {
      assert BodyWritten(body) + tail == tail;
    } else {
      var first := if body[0].Self? then [body[0].c] else ['\\', body[0].c];
      var text := [if body[0].Self? then body[0].c else Meant(body[0].c)];
      assert BodyWritten(body) + tail == first + (BodyWritten(body[1..]) + tail);
      QuotedFirst(body[0], quote, BodyWritten(body[1..]) + tail, delimiter);
      QuotedMeans(quote, body[1..], tail, delimiter);
      hide Token;
      PrependPrepend(text, BodyText(body[1..]), Token(tail, delimiter, Some(quote)));
    }
  }

  lemma PieceMeans(p: Piece, rest: string, delimiter: string)
    requires IsDelimiter(delimiter) && ProperPiece(p, delimiter)
    ensures Token(PieceWritten(p) + rest, delimiter, None) == Prepend(PieceText(p), Token(rest, delimiter, None))
  {
    var line := PieceWritten(p) + rest;
    match p
    case Bare(c) =>
      assert line[0] == c && line[1..] == rest;
      hide IsSpace;
    case Slashed(c) =>
      assert line[0] == '\\' && line[1..][0] == c && line[1..][1..] == rest;
    case Quoted(quote, body) =>
      assert line == [quote] + (BodyWritten(body) + ([quote] + rest));
      OpenQuote(quote, BodyWritten(body) + ([quote] + rest), delimiter);
      CloseQuote(quote, rest, delimiter);
      hide Token, IsSpace, BodyWritten;
      QuotedMeans(quote, body, [quote] + rest, delimiter);
  }

  lemma CloseQuote(quote: char, rest: string, delimiter: string)
    requires quote == '\'' || quote == '"'
    ensures Token([quote] + rest, delimiter, Some(quote)) == Token(rest, delimiter, None)
  {
    assert ([quote] + rest)[1..] == rest;
  }

  /** A token is read as what its pieces stand for, whatever follows it. */
  lemma {:induction false} TokenMeans(pieces: seq<Piece>, rest: string, delimiter: string)
    requires IsDelimiter(delimiter) && Proper(pieces, delimiter)
    ensures Token(Written(pieces) + rest, delimiter, None) == Prepend(Text(pieces), Token(rest, delimiter, None))
    decreases |pieces|
  {
    hide Token, PieceText;
    if pieces == [] {
      assert Written(pieces) + rest == rest;
    } else {
      assert Written(pieces) + rest == PieceWritten(pieces[0]) + (Written(pieces[1..]) + rest);
      PieceMeans(pieces[0], Written(pieces[1..]) + rest, delimiter);
      TokenMeans(pieces[1..], rest, delimiter);
      PrependPrepend(PieceText(pieces[0]), Text(pieces[1..]), Token(rest, delimiter, None));
    }
  }

  /** Where a token ends: at the end of the line, a delimiter, a comment or white space. */
  predicate EndsToken(rest: string, delimiter: string) {
    rest == "" || rest[0] in delimiter || rest[0] == '#' || IsSpace(rest[0])
  }

  /** A token broken off by the end of the line behind a backslash or inside quotes. */
  ghost predicate IsBroken(rest: string) {
    || rest == "\\"
    || (rest != "" && (rest[0] == '\'' || rest[0] == '"')
        && exists body: seq<Mark> :: BrokenBody(rest, body))
  }

  predicate BrokenBody(rest: string, body: seq<Mark>)
    requires rest != ""
  {
    ProperBody(rest[0], body) && (rest[1..] == BodyWritten(body) || rest[1..] == BodyWritten(body) + "\\")
  }

  /** A broken token is an error: behind a backslash, or for want of a closing quote. */
  lemma BrokenMeans(pieces: seq<Piece>, quote: char, body: seq<Mark>, delimiter: string)
    requires IsDelimiter(delimiter) && Proper(pieces, delimiter)
    requires (quote == '\'' || quote == '"') && ProperBody(quote, body)
    ensures Token(Written(pieces) + "\\", delimiter, None) == Err(TrailingBackslash)
    ensures Token(Written(pieces) + ([quote] + (BodyWritten(body) + "\\")), delimiter, None) == Err(TrailingBackslash)
    ensures Token(Written(pieces) + ([quote] + (BodyWritten(body) + "")), delimiter, None) == Err(MissingQuote)
  {
    TokenMeans(pieces, "\\", delimiter);
    TokenMeans(pieces, [quote] + (BodyWritten(body) + "\\"), delimiter);
    TokenMeans(pieces, [quote] + (BodyWritten(body) + ""), delimiter);
    OpenQuote(quote, BodyWritten(body) + "\\", delimiter);
    OpenQuote(quote, BodyWritten(body) + "", delimiter);
    QuotedMeans(quote, body, "\\", delimiter);
    QuotedMeans(quote, body, "", delimiter);
    assert Token("\\", delimiter, Some(quote)) == Err(TrailingBackslash);
    assert Token("", delimiter, Some(quote)) == Err(MissingQuote);
    assert Token("\\", delimiter, None) == Err(TrailingBackslash);
    hide Token, BodyWritten, Written;
  }

  lemma OpenQuote(quote: char, rest: string, delimiter: string)
    requires IsDelimiter(delimiter) && (quote == '\'' || quote == '"')
    ensures Token([quote] + rest, delimiter, None) == Token(rest, delimiter, Some(quote))
  {
    assert ([quote] + rest)[1..] == rest;
  }

  lemma {:induction false} BodyCases(quote: char, s: string) returns (body: seq<Mark>, rest: string)
    requires quote == '\'' || quote == '"'
    ensures ProperBody(quote, body) && s == BodyWritten(body) + rest
    ensures rest == "" || rest == "\\" || rest[0] == quote
    decreases |s|
  {
    if s == "" || s == "\\" || s[0] == quote {
      body, rest := [], s;
      assert s == "" + rest;
    } else if s[0] == '\\' {
      assert s == ['\\', s[1]] + s[2..];
      hide *;
      body, rest := BodyCases(quote, s[2..]);
      BodyGrows(quote, Escaped(s[1]), body, rest);
      body := [Escaped(s[1])] + body;
    } else {
      assert s == [s[0]] + s[1..];
      hide *;
      body, rest := BodyCases(quote, s[1..]);
      BodyGrows(quote, Self(s[0]), body, rest);
      body := [Self(s[0])] + body;
    }
  }

  lemma BodyGrows(quote: char, m: Mark, body: seq<Mark>, rest: string)
    requires m.Self? ==> m.c != quote && m.c != '\\'
    requires ProperBody(quote, body)
    ensures ProperBody(quote, [m] + body)
    ensures BodyWritten([m] + body) + rest == (if m.Self? then [m.c] else ['\\', m.c]) + (BodyWritten(body) + rest)
  {
    assert ([m] + body)[1..] == body;
    assert BodyWritten([m] + body) == (if m.Self? then [m.c] else ['\\', m.c]) + BodyWritten(body);
    hide BodyWritten;
  }

  /** Every line starts with a token that is written in pieces, and then either ends it or breaks it off. */
  lemma {:induction false} TokenCases(line: string, delimiter: string) returns (pieces: seq<Piece>, rest: string)
    requires IsDelimiter(delimiter)
    ensures Proper(pieces, delimiter) && line == Written(pieces) + rest
    ensures EndsToken(rest, delimiter) || IsBroken(rest)
    decreases |line|
  {
    if EndsToken(line, delimiter) || line == "\\" {
      pieces, rest := [], line;
    } else {
      var p: Piece, tail: string;
      if line[0] == '\\' {
        p, tail := Slashed(line[1]), line[2..];
        assert line == [line[0], line[1]] + tail;
      } else if line[0] == '\'' || line[0] == '"' {
        var body, after := BodyCases(line[0], line[1..]);
        if after == "" || after == "\\" {
          assert BodyWritten(body) + "" == BodyWritten(body);
          assert BrokenBody(line, body);
          pieces, rest := [], line;
          return;
        }
        p, tail := Quoted(line[0], body), after[1..];
        assert after == [line[0]] + tail;
        assert line == PieceWritten(p) + tail;
      } else {
        p, tail := Bare(line[0]), line[1..];
        assert line == [line[0]] + tail;
      }
      assert line == PieceWritten(p) + tail;
      pieces, rest := TokenCases(tail, delimiter);
      PiecesGrow(p, pieces, rest, delimiter);
      pieces := [p] + pieces;
    }
  }

  lemma PiecesGrow(p: Piece, pieces: seq<Piece>, rest: string, delimiter: string)
    requires ProperPiece(p, delimiter) && Proper(pieces, delimiter)
    ensures Proper([p] + pieces, delimiter)
    ensures Written([p] + pieces) + rest == PieceWritten(p) + (Written(pieces) + rest)
  {
    assert ([p] + pieces)[1..] == pieces;
    assert Written([p] + pieces) == PieceWritten(p) + Written(pieces);
    hide Written, PieceWritten, ProperPiece;
  }

  // ---------------------------------------------------------------- white space and comments

  predicate AllSpace(s: string) {
    forall i :: 0 <= i < |s| ==> IsSpace(s[i])
  }

  /** Nothing but a comment follows. */
  predicate IsTail(s: string) {
    s == "" || s[0] == '#'
  }

  lemma {:induction false} SpacesSkipped(spaces: string, rest: string)
    requires AllSpace(spaces) && (rest == "" || !IsSpace(rest[0]))
    ensures LeadingSpaces(spaces + rest) == |spaces|
    ensures Advance(spaces + rest) == if IsTail(rest) then "" else rest
    decreases |spaces|
  {
    if spaces == "" {
      assert spaces + rest == rest;
      assert rest[0..] == rest;
    } else {
      assert (spaces + rest)[1..] == spaces[1..] + rest;
      SpacesSkipped(spaces[1..], rest);
      assert (spaces + rest)[|spaces|..] == rest;
    }
  }

  lemma EmptyToken(after: string, delimiter: string)
    requires IsDelimiter(delimiter) && EndsToken(after, delimiter)
    ensures Token(after, delimiter, None) ==
              Ok(("", if after == "" || after[0] in delimiter then after
                      else if after[0] == '#' then "" else after[1..]))
  {
  }

  lemma EndOfToken(spaces: string, rest: string, delimiter: string)
    requires IsDelimiter(delimiter) && AllSpace(spaces)
    requires rest == "" || !IsSpace(rest[0])
    requires spaces != "" || EndsToken(rest, delimiter)
    ensures var r := Token(spaces + rest, delimiter, None);
            r.Ok? && r.value.0 == "" && Advance(r.value.1) == if IsTail(rest) then "" else rest
  {
    if spaces == "" {
      assert spaces + rest == rest;
      TokenAtEnd(rest, delimiter);
    } else {
      var after := spaces + rest;
      assert after[0] == spaces[0] && after[1..] == spaces[1..] + rest && IsSpace(spaces[0]);
      SpaceIsPlain(spaces[0], delimiter);
      hide Token, Advance, IsSpace;
      EmptyToken(after, delimiter);
      SpacesSkipped(spaces[1..], rest);
    }
  }

  lemma SpaceIsPlain(c: char, delimiter: string)
    requires IsSpace(c) && IsDelimiter(delimiter)
    ensures c !in delimiter && c != '#'
  {
  }

  lemma TokenAtEnd(rest: string, delimiter: string)
    requires IsDelimiter(delimiter) && (rest == "" || !IsSpace(rest[0])) && EndsToken(rest, delimiter)
    ensures var r := Token(rest, delimiter, None);
            r.Ok? && r.value.0 == "" && Advance(r.value.1) == if IsTail(rest) then "" else rest
  {
    EmptyToken(rest, delimiter);
    hide Token, IsSpace, Advance;
    SpacesSkipped("", "");
    SpacesSkipped("", rest);
    assert "" + rest == rest && "" + "" == "";
  }

  /** What follows a token once it was read and white space skipped: nothing if a comment comes first. */
  lemma TokenThenSpaces(pieces: seq<Piece>, spaces: string, rest: string, delimiter: string)
    requires IsDelimiter(delimiter) && Proper(pieces, delimiter) && AllSpace(spaces)
    requires rest == "" || !IsSpace(rest[0])
    requires spaces != "" || EndsToken(rest, delimiter)
    ensures var r := Token(Written(pieces) + (spaces + rest), delimiter, None);
            r.Ok? && r.value.0 == Text(pieces) && Advance(r.value.1) == if IsTail(rest) then "" else rest
  {
    EndOfToken(spaces, rest, delimiter);
    TokenMeans(pieces, spaces + rest, delimiter);
    hide Token, Advance, Text, Written, EndsToken;
    assert Text(pieces) + "" == Text(pieces);
  }

  // ---------------------------------------------------------------- how a line is written

  /** A name behind some indentation, white space, and what follows it. */
  function Named(indent: string, name: seq<Piece>, spaces: string, rest: string): string {
    indent + (Written(name) + (spaces + rest))
  }

  /** The token of the name ends there, and what follows is not white space. */
  ghost predicate ProperName(indent: string, name: seq<Piece>, spaces: string, rest: string) {
    && AllSpace(indent) && AllSpace(spaces) && Proper(name, ":=")
    && (rest == "" || !IsSpace(rest[0]))
    && (spaces != "" || EndsToken(rest, ":="))
    && (name == [] ==> spaces == "" && !IsTail(rest))
  }

  lemma {:induction false} WrittenStarts(name: seq<Piece>, delimiter: string)
    requires Proper(name, delimiter) && name != []
    ensures Written(name) != "" && !IsSpace(Written(name)[0]) && Written(name)[0] != '#'
  {
    assert ProperPiece(name[0], delimiter);
  }

  lemma NameRead(raw: string, indent: string, name: seq<Piece>, spaces: string, rest: string)
    requires RStrip(raw) == Named(indent, name, spaces, rest) && ProperName(indent, name, spaces, rest)
    ensures LeadingSpaces(RStrip(raw)) == |indent| && Advance(RStrip(raw)) != ""
    ensures var r := Token(Advance(RStrip(raw)), ":=", None);
            r.Ok? && r.value.0 == Text(name) && Advance(r.value.1) == if IsTail(rest) then "" else rest
  {
    var line := Written(name) + (spaces + rest);
    if name != [] {
      WrittenStarts(name, ":=");
    } else {
      assert line == rest;
    }
    SpacesSkipped(indent, line);
    TokenThenSpaces(name, spaces, rest, ":=");
  }

  /** A line of nothing but white space and a comment is blank, whatever the comment says. */
  lemma CommentIsBlank(raw: string, indent: string, tail: string)
    requires RStrip(raw) == indent + tail && AllSpace(indent) && IsTail(tail)
    ensures LineOf(raw) == Ok(Blank(|indent|))
  {
    SpacesSkipped(indent, tail);
  }

  /** What a line says that has a name and a separator, by what follows these. */
  lemma NamedLine(raw: string, indent: string, name: seq<Piece>, spaces: string, rest: string)
    requires RStrip(raw) == Named(indent, name, spaces, rest) && ProperName(indent, name, spaces, rest)
    requires !IsTail(rest) && (rest[0] == ':' || rest[0] == '=') && Text(name) != ""
    ensures Advance(rest[1..]) == "" && rest[0] == ':' ==> LineOf(raw) == Ok(Section(|indent|, Text(name)))
    ensures Advance(rest[1..]) == "" && rest[0] == '=' ==> LineOf(raw) == Ok(Setting(|indent|, Text(name), Absent))
  {
    NameRead(raw, indent, name, spaces, rest);
    hide Token, Advance, Text, Written, RStrip, LeadingSpaces, Values, IsSpace;
  }

  /** A name and a colon open a section; a name and an equal sign without a value set none; a comment may follow. */
  lemma NameAloneMeans(raw: string, indent: string, name: seq<Piece>, spaces: string, separator: char, after: string,
      tail: string)
    requires separator == ':' || separator == '='
    requires RStrip(raw) == Named(indent, name, spaces, [separator] + (after + tail))
    requires ProperName(indent, name, spaces, [separator] + (after + tail)) && Text(name) != ""
    requires AllSpace(after) && IsTail(tail)
    ensures LineOf(raw) == Ok(if separator == ':' then Section(|indent|, Text(name))
                              else Setting(|indent|, Text(name), Absent))
  {
    var rest := [separator] + (after + tail);
    assert rest[1..] == after + tail && rest[0] == separator && !IsTail(rest);
    SpacesSkipped(after, tail);
    assert Advance(rest[1..]) == "";
    hide *;
    NamedLine(raw, indent, name, spaces, rest);
  }

  /** A name without a separator, a separator without a name, and anything but a comment behind a colon are errors. */
  lemma NameErrors(raw: string, indent: string, name: seq<Piece>, spaces: string, rest: string)
    requires RStrip(raw) == Named(indent, name, spaces, rest) && ProperName(indent, name, spaces, rest)
    ensures IsTail(rest) || (rest[0] != ':' && rest[0] != '=') ==> LineOf(raw) == Err(ExpectedSeparator)
    ensures !IsTail(rest) && (rest[0] == ':' || rest[0] == '=') && Text(name) == "" ==> LineOf(raw) == Err(MissingName)
    ensures !IsTail(rest) && rest[0] == ':' && Text(name) != "" && Advance(rest[1..]) != "" ==>
              LineOf(raw) == Err(UnexpectedAfterColon)
  {
    NameRead(raw, indent, name, spaces, rest);
    hide Token, Advance, Text, Written, RStrip, LeadingSpaces;
  }

  // ---------------------------------------------------------------- how values are written

  /** An item of a list: white space, its token, and white space. */
  datatype Cell = Cell(lead: string, pieces: seq<Piece>, after: string)

  /** The items with commas between them, then what follows the last. */
  function CellsWritten(cells: seq<Cell>, end: string): string
    requires cells != []
  {
    var first := cells[0];
    Written(first.pieces)
    + (first.after + if |cells| == 1 then end else "," + (cells[1].lead + CellsWritten(cells[1..], end)))
  }

  function Items(cells: seq<Cell>): seq<string> {
    if cells == [] then [] else [Text(cells[0].pieces)] + Items(cells[1..])
  }

  /** Every item is written so that it is read alone, and only an item before a comma may be empty. */
  ghost predicate ProperCells(cells: seq<Cell>, end: string) {
    && cells != []
    && (forall i :: 0 <= i < |cells| ==>
          && Proper(cells[i].pieces, ",") && AllSpace(cells[i].lead) && AllSpace(cells[i].after)
          && (cells[i].pieces == [] ==> cells[i].after == ""))
    && (end == "" || !IsSpace(end[0]))
    && (cells[|cells| - 1].pieces == [] ==> end != "" && end[0] == ',')
    && (cells[|cells| - 1].after == "" ==> EndsToken(end, ","))
  }

  lemma TailCells(cells: seq<Cell>, end: string)
    requires ProperCells(cells, end) && |cells| > 1
    ensures ProperCells(cells[1..], end)
  {
    var rest := cells[1..];
    assert rest[|rest| - 1] == cells[|cells| - 1];
    forall i | 0 <= i < |rest|
      ensures Proper(rest[i].pieces, ",") && AllSpace(rest[i].lead) && AllSpace(rest[i].after)
      ensures rest[i].pieces == [] ==> rest[i].after == ""
    {
      assert rest[i] == cells[i + 1];
    }
  }

  lemma CellsStart(cells: seq<Cell>, end: string)
    requires ProperCells(cells, end)
    ensures var line := CellsWritten(cells, end);
            line != "" && !IsSpace(line[0]) && line[0] != '#'
  {
    var first := cells[0];
    var line := CellsWritten(cells, end);
    if first.pieces != [] {
      WrittenStarts(first.pieces, ",");
      assert line[0] == Written(first.pieces)[0];
    } else {
      assert line[0] == ',';
    }
  }

  lemma ValuesNext(line: string, items: Option<seq<string>>, text: string, rest: string)
    requires var r := Token(line, ",", None); r.Ok? && r.value.0 == text && Advance(r.value.1) == rest
    ensures var more := (if items.Some? then items.value else []) + [text];
            Values(line, items) ==
              if rest == "" then Ok(if items.Some? then List(more) else Value.Text(text))
              else if rest[0] != ',' then Err(UnexpectedAfterValue)
              else if Advance(rest[1..]) == "" then Ok(List(more))
              else Values(Advance(rest[1..]), Some(more))
  {
  }

  /** What is read once all items but the last were. */
  function LastRead(cells: seq<Cell>, before: seq<string>, end: string): Result<Value, ParseError>
    requires cells != []
  {
    if IsTail(end) then
      Ok(if before == [] && |cells| == 1 then Value.Text(Text(cells[0].pieces)) else List(before + Items(cells)))
    else if end[0] != ',' then Err(UnexpectedAfterValue)
    else Ok(List(before + Items(cells)))
  }

  /** One value is read as a text and several as a list, in order; a comma behind the last makes a list as well, and
      anything but a comment behind it is an error. */
  lemma {:induction false} ValuesMean(cells: seq<Cell>, end: string, items: Option<seq<string>>)
    requires ProperCells(cells, end) && (items.Some? ==> items.value != [])
    requires end != "" && end[0] == ',' ==> Advance(end[1..]) == ""
    ensures Values(CellsWritten(cells, end), items) ==
              LastRead(cells, if items.Some? then items.value else [], end)
    decreases |cells|
  {
    hide Token, Advance, Text, Written, Values, EndsToken, IsSpace;
    var first := cells[0];
    var before := if items.Some? then items.value else [];
    var more := before + [Text(first.pieces)];
    if |cells| == 1 {
      ItemsOfOne(cells);
      TokenThenSpaces(first.pieces, first.after, end, ",");
      ValuesNext(CellsWritten(cells, end), items, Text(first.pieces), if IsTail(end) then "" else end);
    } else {
      ItemsOfMore(cells, before);
      MoreRead(cells, end, items);
      ValuesMean(cells[1..], end, Some(more));
    }
  }

  lemma ItemsOfOne(cells: seq<Cell>)
    requires |cells| == 1
    ensures Items(cells) == [Text(cells[0].pieces)]
  {
    assert Items(cells[1..]) == [];
  }

  lemma ItemsOfMore(cells: seq<Cell>, before: seq<string>)
    requires |cells| > 1
    ensures before + Items(cells) == before + [Text(cells[0].pieces)] + Items(cells[1..])
  {
  }

  lemma MoreRead(cells: seq<Cell>, end: string, items: Option<seq<string>>)
    requires ProperCells(cells, end) && |cells| > 1
    ensures ProperCells(cells[1..], end)
    ensures Values(CellsWritten(cells, end), items) ==
              Values(CellsWritten(cells[1..], end),
                     Some((if items.Some? then items.value else []) + [Text(cells[0].pieces)]))
  {
    hide Token, Advance, Text, Written, Values, IsSpace;
    var first := cells[0];
    var line := CellsWritten(cells[1..], end);
    var rest := "," + (cells[1].lead + line);
    TailCells(cells, end);
    CellsStart(cells[1..], end);
    CommaIsNoSpace();
    TokenThenSpaces(first.pieces, first.after, rest, ",");
    ValuesNext(CellsWritten(cells, end), items, Text(first.pieces), rest);
    assert rest[1..] == cells[1].lead + line;
    SpacesSkipped(cells[1].lead, line);
  }

  lemma CommaIsNoSpace()
    ensures !IsSpace(',')
  {
  }

  lemma ValueRead(raw: string, indent: string, name: seq<Piece>, spaces: string, rest: string)
    requires RStrip(raw) == Named(indent, name, spaces, rest) && ProperName(indent, name, spaces, rest)
    requires rest != "" && rest[0] == '=' && Advance(rest[1..]) != "" && Text(name) != ""
    ensures var v := Values(Advance(rest[1..]), None);
            LineOf(raw) == if v.Err? then Err(v.error) else Ok(Setting(|indent|, Text(name), v.value))
  {
    NameRead(raw, indent, name, spaces, rest);
    hide Token, Advance, Text, Written, RStrip, LeadingSpaces, Values, ProperName;
  }

  /** A name, an equal sign and values, with white space between them and a comment behind, set the name to what the
      values stand for. */
  lemma SettingMeans(raw: string, indent: string, name: seq<Piece>, spaces: string, cells: seq<Cell>, end: string)
    requires ProperCells(cells, end) && (end != "" && end[0] == ',' ==> Advance(end[1..]) == "")
    requires var rest := "=" + (cells[0].lead + CellsWritten(cells, end));
             RStrip(raw) == Named(indent, name, spaces, rest) && ProperName(indent, name, spaces, rest)
    requires Text(name) != ""
    ensures var value := LastRead(cells, [], end);
            LineOf(raw) == if value.Err? then Err(value.error) else Ok(Setting(|indent|, Text(name), value.value))
  {
    var line := CellsWritten(cells, end);
    var rest := "=" + (cells[0].lead + line);
    hide Token, Text, Written, RStrip, Values, CellsWritten, LastRead, LineOf, ProperName, EndsToken;
    CellsStart(cells, end);
    assert rest[1..] == cells[0].lead + line;
    SpacesSkipped(cells[0].lead, line);
    ValuesMean(cells, end, None);
    ValueRead(raw, indent, name, spaces, rest);
  }

  /** A name broken off by the end of the line is an error. */
  lemma BrokenNameMeans(raw: string, indent: string, pieces: seq<Piece>, quote: char, body: seq<Mark>)
    requires AllSpace(indent) && Proper(pieces, ":=") && (quote == '\'' || quote == '"') && ProperBody(quote, body)
    ensures RStrip(raw) == indent + (Written(pieces) + "\\") ==> LineOf(raw) == Err(TrailingBackslash)
    ensures RStrip(raw) == indent + (Written(pieces) + ([quote] + (BodyWritten(body) + "\\"))) ==>
              LineOf(raw) == Err(TrailingBackslash)
    ensures RStrip(raw) == indent + (Written(pieces) + ([quote] + (BodyWritten(body) + ""))) ==>
              LineOf(raw) == Err(MissingQuote)
  {
    BrokenMeans(pieces, quote, body, ":=");
    BrokenStart(raw, indent, pieces, "\\");
    BrokenStart(raw, indent, pieces, [quote] + (BodyWritten(body) + "\\"));
    BrokenStart(raw, indent, pieces, [quote] + (BodyWritten(body) + ""));
    hide Token, Written, BodyWritten, RStrip, Advance;
  }

  lemma BrokenStart(raw: string, indent: string, pieces: seq<Piece>, rest: string)
    requires AllSpace(indent) && Proper(pieces, ":=")
    requires rest != "" && (rest[0] == '\\' || rest[0] == '\'' || rest[0] == '"')
    ensures RStrip(raw) == indent + (Written(pieces) + rest) ==>
              Advance(RStrip(raw)) == Written(pieces) + rest && Advance(RStrip(raw)) != ""
  {
    var line := Written(pieces) + rest;
    if pieces != [] {
      WrittenStarts(pieces, ":=");
      assert line[0] == Written(pieces)[0];
    } else {
      assert line == rest;
    }
    SpacesSkipped(indent, line);
  }

  // ---------------------------------------------------------------- comments

  /** A line in which nothing is quoted or escaped. */
  predicate Unquoted(line: string) {
    forall i :: 0 <= i < |line| ==> line[i] != '\'' && line[i] != '"' && line[i] != '\\'
  }

  /** White space, and a comment or nothing. */
  predicate IsNote(s: string) {
    Advance(s) == ""
  }

  lemma NoteTail(note: string)
    requires IsNote(note) && note != ""
    ensures note[0] == '#' || (IsSpace(note[0]) && IsNote(note[1..]))
  {
    if IsSpace(note[0]) {
      assert note[LeadingSpaces(note)..] == note[1..][LeadingSpaces(note[1..])..];
    } else {
      assert note[0..] == note;
    }
  }

  lemma {:induction false} AdvanceNote(line: string, note: string)
    requires IsNote(note)
    ensures Advance(line + note) == if Advance(line) == "" then "" else Advance(line) + note
    ensures Advance(line) != "" ==> LeadingSpaces(line + note) == LeadingSpaces(line)
    decreases |line|
  {
    if line == "" {
      assert line + note == note;
    } else if IsSpace(line[0]) {
      assert (line + note)[1..] == line[1..] + note;
      AdvanceNote(line[1..], note);
      assert line[LeadingSpaces(line)..] == line[1..][LeadingSpaces(line[1..])..];
      assert (line + note)[LeadingSpaces(line + note)..]
             == (line + note)[1..][LeadingSpaces(line[1..] + note)..];
    } else {
      assert line[0..] == line && (line + note)[0..] == line + note;
    }
  }

  lemma UnquotedToken(line: string, delimiter: string)
    requires Unquoted(line) && line != ""
    ensures Token(line, delimiter, None) ==
              if line[0] in delimiter then Ok(("", line))
              else if line[0] == '#' then Ok(("", ""))
              else if IsSpace(line[0]) then Ok(("", line[1..]))
              else Prepend([line[0]], Token(line[1..], delimiter, None))
    ensures Unquoted(line[1..])
  {
  }

  /** Of two scans, the second leaves a note more, or both leave nothing but that. */
  ghost predicate NoteMore(
    r: Result<(string, string), ParseError>, t: Result<(string, string), ParseError>, note: string)
  {
    && r.Ok? && t.Ok? && t.value.0 == r.value.0 && Unquoted(r.value.1)
    && (t.value.1 == r.value.1 + note || (r.value.1 == "" && IsNote(t.value.1)))
  }

  lemma NothingIsNote()
    ensures IsNote("")
  {
  }

  lemma {:induction false} TokenNote(line: string, note: string, delimiter: string)
    requires IsDelimiter(delimiter) && Unquoted(line) && IsNote(note)
    ensures NoteMore(Token(line, delimiter, None), Token(line + note, delimiter, None), note)
    decreases |line|
  {
    hide Token, Advance, IsSpace;
    var all := line + note;
    NothingIsNote();
    EmptyToken("", delimiter);
    if line == "" {
      assert all == note;
      if note != "" {
        NoteTail(note);
        CommaIsNoSpace();
        EmptyToken(note, delimiter);
        NoDelimiter(note[0], delimiter);
      }
    } else {
      assert all[0] == line[0] && all[1..] == line[1..] + note;
      UnquotedToken(line, delimiter);
      NoteToken(line, note, delimiter);
      if line[0] !in delimiter && line[0] != '#' && !IsSpace(line[0]) {
        TokenNote(line[1..], note, delimiter);
      }
    }
  }

  lemma NoDelimiter(c: char, delimiter: string)
    requires IsDelimiter(delimiter) && (c == '#' || IsSpace(c))
    ensures c !in delimiter
  {
  }

  lemma NoteToken(line: string, note: string, delimiter: string)
    requires Unquoted(line) && line != ""
    ensures Token(line + note, delimiter, None) ==
              if line[0] in delimiter then Ok(("", line + note))
              else if line[0] == '#' then Ok(("", ""))
              else if IsSpace(line[0]) then Ok(("", line[1..] + note))
              else Prepend([line[0]], Token(line[1..] + note, delimiter, None))
  {
    var all := line + note;
    assert all[0] == line[0] && all[1..] == line[1..] + note;
  }

  lemma TokenNoteSkipped(line: string, note: string, delimiter: string)
    requires IsDelimiter(delimiter) && Unquoted(line) && IsNote(note)
    ensures var r, t := Token(line, delimiter, None), Token(line + note, delimiter, None);
            && r.Ok? && t.Ok? && t.value.0 == r.value.0 && Unquoted(Advance(r.value.1))
            && Advance(t.value.1) == (if Advance(r.value.1) == "" then "" else Advance(r.value.1) + note)
  {
    hide Token;
    TokenNote(line, note, delimiter);
    var r := Token(line, delimiter, None);
    AdvanceNote(r.value.1, note);
    assert Advance("") == "";
    AdvanceIsPart(r.value.1);
  }

  lemma AdvanceIsPart(line: string)
    requires Unquoted(line)
    ensures Unquoted(Advance(line))
  {
  }

  lemma {:induction false} ValuesNote(line: string, note: string, items: Option<seq<string>>)
    requires Unquoted(line) && IsNote(note)
    ensures Values(line + note, items) == Values(line, items)
    decreases |line|
  {
    hide Token, Values, Advance, Unquoted;
    TokenNoteSkipped(line, note, ",");
    var r, t := Token(line, ",", None), Token(line + note, ",", None);
    var rest, more := Advance(r.value.1), (if items.Some? then items.value else []) + [r.value.0];
    ValuesNext(line, items, r.value.0, rest);
    ValuesNext(line + note, items, r.value.0, Advance(t.value.1));
    if rest != "" && rest[0] == ',' {
      assert (rest + note)[1..] == rest[1..] + note;
      AdvanceNote(rest[1..], note);
      TailUnquoted(rest);
      AdvanceIsPart(rest[1..]);
      if Advance(rest[1..]) != "" {
        ValuesNote(Advance(rest[1..]), note, Some(more));
      }
    }
  }

  /** What a line says, its indentation aside when it says nothing. */
  predicate SaysSame(a: Result<Line, ParseError>, b: Result<Line, ParseError>) {
    a == b || (a.Ok? && b.Ok? && a.value.Blank? && b.value.Blank?)
  }

  /** Behind a line in which nothing is quoted or escaped, white space and a comment change nothing. */
  lemma CommentChangesNothing(raw: string, spaces: string, comment: string)
    requires Unquoted(raw) && AllSpace(spaces) && comment != "" && comment[0] == '#'
    ensures SaysSame(LineOf(raw + (spaces + comment)), LineOf(raw))
  {
    hide Unquoted, RStrip, Advance, LineOf, LeadingSpaces, IsSpace;
    var kept := RStripBehind(raw + spaces, comment);
    var blanks := RStripParts(raw);
    var note := (blanks + spaces) + kept;
    HashIsNoSpace();
    SpacesSkipped(blanks + spaces, kept);
    assert raw + spaces + kept == RStrip(raw) + note;
    assert raw + spaces + comment == raw + (spaces + comment);
    StripUnquoted(raw);
    StrippedNote(raw, raw + (spaces + comment), note);
  }

  lemma StrippedNote(raw: string, noted: string, note: string)
    requires Unquoted(RStrip(raw)) && IsNote(note) && RStrip(noted) == RStrip(raw) + note
    ensures SaysSame(LineOf(noted), LineOf(raw))
  {
    hide Token, Values, RStrip, Unquoted;
    var line := Advance(RStrip(raw));
    AdvanceNote(RStrip(raw), note);
    AdvanceIsPart(RStrip(raw));
    if line != "" {
      TokenNoteSkipped(line, note, ":=");
      var rest := Advance(Token(line, ":=", None).value.1);
      if rest != "" {
        assert (rest + note)[0] == rest[0] && (rest + note)[1..] == rest[1..] + note;
        AdvanceNote(rest[1..], note);
        TailUnquoted(rest);
        AdvanceIsPart(rest[1..]);
        ValuesNote(Advance(rest[1..]), note, None);
        hide Advance, LeadingSpaces;
      }
    }
  }

  lemma HashIsNoSpace()
    ensures !IsSpace('#')
  {
  }

  lemma StripUnquoted(raw: string)
    requires Unquoted(raw)
    ensures Unquoted(RStrip(raw))
  {
    hide RStrip;
  }

  lemma TailUnquoted(line: string)
    requires Unquoted(line) && line != ""
    ensures Unquoted(line[1..])
  {
  }

  /** Stripping takes ASCII white space off the end. */
  lemma {:induction false} RStripParts(s: string) returns (spaces: string)
    ensures s == RStrip(s) + spaces && AllSpace(spaces)
    ensures forall i :: 0 <= i < |spaces| ==> IsAsciiSpace(spaces[i])
    ensures RStrip(s) != "" ==> !IsAsciiSpace(RStrip(s)[|RStrip(s)| - 1])
  {
    if s != [] && IsAsciiSpace(s[|s| - 1]) {
      var last := s[|s| - 1];
      assert IsSpace(last);
      assert RStrip(s) == RStrip(s[..|s| - 1]);
      hide IsSpace, IsAsciiSpace, RStrip;
      spaces := RStripParts(s[..|s| - 1]);
      assert s == s[..|s| - 1] + [last];
      spaces := spaces + [last];
    } else {
      spaces := "";
    }
  }

  /** ASCII white space behind a line, such as its end, changes nothing, also behind a backslash. */
  lemma {:induction false} SpaceBehindChangesNothing(raw: string, spaces: string)
    requires forall i :: 0 <= i < |spaces| ==> IsAsciiSpace(spaces[i])
    ensures RStrip(raw + spaces) == RStrip(raw) && LineOf(raw + spaces) == LineOf(raw)
    decreases |spaces|
  {
    if spaces == "" {
      assert raw + spaces == raw;
    } else {
      var most := spaces[..|spaces| - 1];
      assert raw + spaces == (raw + most) + [spaces[|spaces| - 1]];
      assert (raw + spaces)[..|raw + spaces| - 1] == raw + most;
      SpaceBehindChangesNothing(raw, most);
      hide Token, Values, Advance, LeadingSpaces;
    }
  }

  /** Stripping a line with a comment leaves a comment. */
  lemma {:induction false} RStripBehind(line: string, comment: string) returns (kept: string)
    requires IsTail(comment) && comment != ""
    ensures RStrip(line + comment) == line + kept && IsTail(kept) && kept != ""
    decreases |comment|
  {
    var all := line + comment;
    if IsAsciiSpace(comment[|comment| - 1]) {
      assert all[..|all| - 1] == line + comment[..|comment| - 1];
      kept := RStripBehind(line, comment[..|comment| - 1]);
    } else {
      kept := comment;
    }
  }
}
