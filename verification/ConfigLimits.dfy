/** The exact limits of the configuration format: data that is not storable is never read
    back as it was, because a printed file only ever yields storable data. */
module ConfigLimits {
  import opened Wrappers
  import opened ConfigText
  import opened ConfigFile
  import opened NameOrder
  import opened ConfigRoundTrip

  /** Where a scan is: outside quotes, or inside double quotes having seen nothing yet, only
      characters that do not need quoting, or some character that does. */
  datatype Place = Outside | Opened | Unneeded | Needed

  /** Text in which only double quotes quote, backslashes appear only inside quotes and stand
      for characters that need them, and every non-empty quoted part needs its quotes. */
  predicate Tame(x: string, place: Place)
    decreases |x|
  {
    if x == [] then place.Outside?
    else if place.Outside? then
      if x[0] == '"' then Tame(x[1..], Opened)
      else x[0] != '\'' && x[0] != '\\' && Tame(x[1..], Outside)
    else if x[0] == '"' then !place.Unneeded? && Tame(x[1..], Outside)
    else if x[0] == '\\' then |x| > 1 && IsEscapeChar(Unescaped(x[1])) && Tame(x[2..], Needed)
    else Tame(x[1..], if place.Needed? || IsEscapeChar(x[0]) then Needed else Unneeded)
  }

  // ---------------------------------------------------------------- printed lines are tame

  lemma {:induction false} TameBody(s: string, rest: string, place: Place)
    requires !place.Outside? && Tame(rest, Outside)
    requires place.Needed? || HasEscapeChar(s) || (s == "" && place.Opened?)
    ensures Tame(EscapedBody(s) + "\"" + rest, place)
  {
    var x := EscapedBody(s) + "\"" + rest;
    if s == "" {
      assert x[1..] == rest;
    } else {
      var e := EscapedChar(s[0]);
      var tail := EscapedBody(s[1..]) + "\"" + rest;
      assert x == e + tail;
      assert x[|e|..] == tail;
      if IsEscapeChar(s[0]) {
        TameBody(s[1..], rest, Needed);
      } else {
        assert HasEscapeChar(s) ==> HasEscapeChar(s[1..]) by {
          if HasEscapeChar(s) {
            var c :| c in s && IsEscapeChar(c);
            assert c in s[1..];
          }
        }
        TameBody(s[1..], rest, if place.Needed? then Needed else Unneeded);
      }
    }
  }

  lemma {:induction false} TamePlain(s: string, rest: string)
    requires (forall c :: c in s ==> c !in "\"'\\") && Tame(rest, Outside)
    ensures Tame(s + rest, Outside)
  {
    if s == [] {
      assert s + rest == rest;
    } else {
      assert s[0] in s && (s + rest)[1..] == s[1..] + rest;
      TamePlain(s[1..], rest);
    }
  }

  lemma TameQuoted(body: string, s: string, rest: string)
    requires body == EscapedBody(s) && HasEscapeChar(s) && Tame(rest, Outside)
    ensures Tame("\"" + body + "\"" + rest, Outside)
  {
    var x := "\"" + body + "\"" + rest;
    assert x[0] == '"' && x[1..] == body + "\"" + rest;
    assert Tame(x, Outside) == Tame(x[1..], Opened);
    hide EscapedBody, Tame;
    TameBody(s, rest, Opened);
  }

  lemma TameEscape(s: string, rest: string)
    requires Tame(rest, Outside)
    ensures Tame(Escape(s) + rest, Outside)
  {
    if s == "" {
      var x := "\"\"" + rest;
      assert x[1..][1..] == rest;
    } else if HasEscapeChar(s) {
      SubstitutionIsCharwise(s);
      hide Substituted, EscapedBody, Tame, IsEscapeChar;
      TameQuoted(EscapedBody(s), s, rest);
    } else {
      hide Tame;
      assert forall c :: c in s ==> !IsEscapeChar(c);
      TamePlain(s, rest);
    }
  }

  lemma {:induction false} TameJoin(items: seq<string>, rest: string)
    requires Tame(rest, Outside)
    ensures Tame(JoinEscaped(items) + rest, Outside)
  {
    hide Tame, Escape;
    if items == [] {
      assert JoinEscaped(items) + rest == rest;
    } else if |items| == 1 {
      TameEscape(items[0], rest);
    } else {
      var more := JoinEscaped(items[1..]) + rest;
      TameJoin(items[1..], rest);
      TamePlain(", ", more);
      TameEscape(items[0], ", " + more);
      JoinUnfolds(items);
      hide JoinEscaped;
      assert JoinEscaped(items) + rest == Escape(items[0]) + (", " + more);
    }
  }

  lemma {:induction false} SpacesArePlain(n: nat)
    ensures forall c :: c in Spaces(n) ==> c == ' '
  {
    if n != 0 {
      SpacesArePlain(n - 1);
    }
  }

  lemma TameStart(level: nat, name: string, tail: string)
    requires Tame(tail, Outside)
    ensures Tame(Spaces(4 * level) + Escape(name) + tail, Outside)
  {
    hide Tame, Escape;
    SpacesArePlain(4 * level);
    TameEscape(name, tail);
    TamePlain(Spaces(4 * level), Escape(name) + tail);
    assert Spaces(4 * level) + (Escape(name) + tail) == Spaces(4 * level) + Escape(name) + tail;
  }

  lemma TameSeparator(sep: string)
    requires LineSeparator(sep)
    ensures Tame(sep, Outside)
  {
    TamePlain(sep, "");
    assert sep + "" == sep;
  }

  lemma TameSection(level: nat, name: string, sep: string)
    requires LineSeparator(sep)
    ensures Tame(SectionLine(level, name) + sep, Outside)
  {
    hide Tame, Escape, Spaces;
    TameSeparator(sep);
    TamePlain(":", sep);
    TameStart(level, name, ":" + sep);
    assert SectionLine(level, name) + sep == Spaces(4 * level) + Escape(name) + (":" + sep);
  }

  lemma TameSetting(level: nat, name: string, data: Node, sep: string)
    requires LineSeparator(sep) && Printable(data) && !data.Dict?
    ensures Tame(SettingLine(level, name, data) + sep, Outside)
  {
    hide Tame, Escape, Spaces, JoinEscaped;
    TameSeparator(sep);
    var start := Spaces(4 * level) + Escape(name);
    match data
    case Null =>
      TamePlain(" =", sep);
      TameStart(level, name, " =" + sep);
      assert start + " =" + sep == start + (" =" + sep);
    case Str(s) =>
      TameEscape(s, sep);
      TamePlain(" = ", Escape(s) + sep);
      TameStart(level, name, " = " + (Escape(s) + sep));
      assert start + (" = " + Escape(s)) + sep == start + (" = " + (Escape(s) + sep));
    case Lst(items) =>
      var comma := if |items| == 1 then "," else "";
      TamePlain(comma, sep);
      TameJoin(items, comma + sep);
      var text := JoinEscaped(items) + (comma + sep);
      TamePlain(" = ", text);
      TameStart(level, name, " = " + text);
      assert start + (" = " + (JoinEscaped(items) + comma)) + sep == start + (" = " + text);
  }

  predicate AllTame(lines: seq<string>) {
    forall i :: 0 <= i < |lines| ==> Tame(lines[i], Outside)
  }

  lemma {:induction false} SettingsAreTame(names: seq<string>, m: map<string, Node>, level: nat, sep: string)
    requires forall k :: k in names ==> k in m && Printable(m[k])
    requires LineSeparator(sep)
    ensures AllTame(Ended(SettingLines(names, m, level), sep))
  {
    hide Tame, SettingLine;
    if names != [] {
      var last := |names| - 1;
      SettingsAreTame(names[..last], m, level, sep);
      var before := SettingLines(names[..last], m, level);
      assert before + [] == before;
      if !m[names[last]].Dict? {
        var line := SettingLine(level, names[last], m[names[last]]);
        TameSetting(level, names[last], m[names[last]], sep);
        assert SettingLines(names, m, level) == before + [line];
        assert Ended(before + [line], sep) == Ended(before, sep) + [line + sep];
      }
    }
  }

  lemma AllTameConcat(a: seq<string>, b: seq<string>, sep: string)
    requires AllTame(Ended(a, sep)) && AllTame(Ended(b, sep))
    ensures AllTame(Ended(a + b, sep))
  {
    hide Tame;
    EndedConcat(a, b, sep);
  }

  lemma {:induction false} GroupsAreTame(names: seq<string>, group: Node, level: nat, sep: string)
    requires group.Dict? && LineSeparator(sep)
    requires forall k :: k in names ==> k in group.m && Printable(group.m[k])
    ensures AllTame(Ended(GroupLines(names, group, level), sep))
    decreases group, 0, |names|
  {
    hide Tame, SectionLine, AllTame, Ended, Lines, Printable;
    if names == [] {
      assert AllTame(Ended([], sep)) by { NoneTame(sep); }
    } else {
      var last := |names| - 1;
      GroupsAreTame(names[..last], group, level, sep);
      var data := group.m[names[last]];
      var before := GroupLines(names[..last], group, level);
      if data.Dict? {
        LinesAreTame(data, level + 1, sep);
        TameSection(level, names[last], sep);
        TameSeparator(sep);
        OneTame(SectionLine(level, names[last]), sep);
        assert "" + sep == sep;
        OneTame("", sep);
        AllTameConcat([SectionLine(level, names[last])], Lines(data, level + 1), sep);
        AllTameConcat([SectionLine(level, names[last])] + Lines(data, level + 1), [""], sep);
        AllTameConcat(before, [SectionLine(level, names[last])] + Lines(data, level + 1) + [""], sep);
      } else {
        assert before + [] == before;
      }
    }
  }

  lemma NoneTame(sep: string)
    ensures AllTame(Ended([], sep))
  {
  }

  lemma OneTame(line: string, sep: string)
    requires Tame(line + sep, Outside)
    ensures AllTame(Ended([line], sep))
  {
    hide Tame;
  }

  lemma {:induction false} LinesAreTame(group: Node, level: nat, sep: string)
    requires group.Dict? && Printable(group) && LineSeparator(sep)
    ensures AllTame(Ended(Lines(group, level), sep))
    decreases group, 1
  {
    hide Tame;
    var names := SortedNames(group.m.Keys);
    SettingsAreTame(names, group.m, level, sep);
    GroupsAreTame(names, group, level, sep);
    EndedConcat(SettingLines(names, group.m, level), GroupLines(names, group, level), sep);
  }

  // ---------------------------------------------------------------- tame lines parse to storable strings

  /** Prefixing a character keeps a string representable unless it adds unquoted white space. */
  lemma RepresentableCons(c: char, s: string)
    ensures IsEscapeChar(c) || HasEscapeChar(s) ==> HasEscapeChar([c] + s)
    ensures !IsSpace(c) && Representable(s) ==> Representable([c] + s)
  {
    var x := [c] + s;
    assert x[0] == c && x[1..] == s;
    if HasEscapeChar(s) {
      var d :| d in s && IsEscapeChar(d);
      assert d in x;
    }
    if IsEscapeChar(c) {
      assert c in x;
    }
    if !IsSpace(c) && !HasSpace(s) {
      assert forall d :: d in x ==> d == c || d in s;
    }
  }

  lemma {:induction false} TokenIsRepresentable(x: string, delimiter: string, place: Place)
    requires Tame(x, place)
    requires forall c :: c in delimiter ==> c !in "'\"\\"
    ensures var r := Token(x, delimiter, if place.Outside? then None else Some('"'));
            r.Ok? ==>
              && Tame(r.value.1, Outside)
              && (place.Outside? || place.Opened? ==> Representable(r.value.0))
              && (place.Unneeded? ==> HasEscapeChar(r.value.0))
    decreases |x|
  {
    if x == [] {
    } else if place.Outside? {
      if x[0] in delimiter {
      } else if x[0] == '"' {
        TokenIsRepresentable(x[1..], delimiter, Opened);
      } else if x[0] == '#' || IsSpace(x[0]) {
      } else {
        TokenIsRepresentable(x[1..], delimiter, Outside);
        var r := Token(x[1..], delimiter, None);
        if r.Ok? {
          RepresentableCons(x[0], r.value.0);
        }
      }
    } else if x[0] == '"' {
      TokenIsRepresentable(x[1..], delimiter, Outside);
    } else if x[0] == '\\' {
      assert x[1..][1..] == x[2..];
      TokenIsRepresentable(x[2..], delimiter, Needed);
      var r := Token(x[2..], delimiter, Some('"'));
      if r.Ok? {
        RepresentableCons(Unescaped(x[1]), r.value.0);
      }
    } else {
      var next := if place.Needed? || IsEscapeChar(x[0]) then Needed else Unneeded;
      TokenIsRepresentable(x[1..], delimiter, next);
      var r := Token(x[1..], delimiter, Some('"'));
      if r.Ok? {
        RepresentableCons(x[0], r.value.0);
      }
    }
  }

  lemma {:induction false} AdvanceKeepsTame(x: string)
    requires Tame(x, Outside)
    ensures Tame(Advance(x), Outside)
  {
    if x != [] && IsSpace(x[0]) {
      assert x[0] != '"';
      AdvanceKeepsTame(x[1..]);
      assert x[LeadingSpaces(x)..] == x[1..][LeadingSpaces(x[1..])..];
    }
  }

  lemma {:induction false} TameWithoutLast(x: string, place: Place)
    requires x != [] && IsAsciiSpace(x[|x| - 1]) && Tame(x, place)
    ensures Tame(x[..|x| - 1], place)
    decreases |x|
  {
    var y := x[..|x| - 1];
    assert !Tame("", Needed) && !Tame("", Unneeded);
    assert (|x| == 1 ==> x[1..] == "") && (|x| == 2 ==> x[2..] == "");
    if |x| == 1 {
    } else if !place.Outside? && x[0] == '\\' {
      if |x| > 2 {
        TameWithoutLast(x[2..], Needed);
        assert y[2..] == x[2..][..|x[2..]| - 1];
      }
    } else {
      var next := if place.Outside? then (if x[0] == '"' then Opened else Outside)
                  else if x[0] == '"' then Outside
                  else if place.Needed? || IsEscapeChar(x[0]) then Needed else Unneeded;
      TameWithoutLast(x[1..], next);
      assert y[1..] == x[1..][..|x[1..]| - 1];
    }
  }

  lemma {:induction false} RStripKeepsTame(x: string)
    requires Tame(x, Outside)
    ensures Tame(RStrip(x), Outside)
  {
    if x != [] && IsAsciiSpace(x[|x| - 1]) {
      TameWithoutLast(x, Outside);
      RStripKeepsTame(x[..|x| - 1]);
    }
  }

  lemma TameAfter(x: string)
    requires Tame(x, Outside) && x != [] && x[0] in ":=,"
    ensures Tame(Advance(x[1..]), Outside)
  {
    AdvanceKeepsTame(x[1..]);
  }

  predicate ValueRepresentable(v: Value) {
    match v
    case Absent => true
    case Text(s) => Representable(s)
    case List(items) => items != [] && AllRepresentable(items)
  }

  lemma {:induction false} ValuesAreRepresentable(x: string, items: Option<seq<string>>)
    requires Tame(x, Outside) && (items.Some? ==> AllRepresentable(items.value))
    ensures Values(x, items).Ok? ==> ValueRepresentable(Values(x, items).value)
    decreases |x|
  {
    hide Tame, Representable;
    TokenIsRepresentable(x, ",", Outside);
    var r := Token(x, ",", None);
    if r.Ok? {
      AdvanceKeepsTame(r.value.1);
      var rest := Advance(r.value.1);
      var more := (if items.Some? then items.value else []) + [r.value.0];
      assert AllRepresentable(more);
      if rest != [] && rest[0] == ',' {
        TameAfter(rest);
        if Advance(rest[1..]) != [] {
          ValuesAreRepresentable(Advance(rest[1..]), Some(more));
        }
      }
    }
  }

  predicate LineStorable(line: Line) {
    match line
    case Blank(_) => true
    case Section(_, name) => name != "" && Representable(name)
    case Setting(_, name, value) => name != "" && Representable(name) && ValueRepresentable(value)
  }

  lemma LineIsStorable(raw: string)
    requires Tame(raw, Outside)
    ensures LineOf(raw).Ok? ==> LineStorable(LineOf(raw).value)
  {
    hide Tame, Representable, Token, Values;
    RStripKeepsTame(raw);
    AdvanceKeepsTame(RStrip(raw));
    var line := Advance(RStrip(raw));
    TokenIsRepresentable(line, ":=", Outside);
    var r := Token(line, ":=", None);
    if r.Ok? {
      AdvanceKeepsTame(r.value.1);
      var rest := Advance(r.value.1);
      if rest != [] && rest[0] in ":=" {
        TameAfter(rest);
        ValuesAreRepresentable(Advance(rest[1..]), None);
      }
    }
  }

  // ---------------------------------------------------------------- a printed file yields storable data

  predicate EntryStorable(k: string, item: Item) {
    k != "" && Representable(k) && (item.Leaf? ==> Storable(item.value) && Normal(item.value) == item.value)
  }

  ghost predicate AllStorable(dicts: seq<map<string, Item>>) {
    forall i, k :: 0 <= i < |dicts| && k in dicts[i] ==> EntryStorable(k, dicts[i][k])
  }

  lemma PutKeepsStorable(dicts: seq<map<string, Item>>, d: nat, name: string, item: Item)
    requires Forward(dicts) && d < |dicts| && (item.Ref? ==> d < item.dict < |dicts|)
    requires AllStorable(dicts) && EntryStorable(name, item)
    ensures AllStorable(PutItem(dicts, d, name, item))
  {
    hide Storable, Representable;
  }

  lemma StepKeepsStorable(s: LoadState, line: Line)
    requires Valid(s) && AllStorable(s.dicts) && LineStorable(line)
    ensures AllStorable(Step(s, line).dicts)
  {
    hide Representable, AllStorable, PutItem, ValidStack, Forward, PopTo, GroupAt;
    match line
    case Blank(_) =>
    case Section(indentation, name) =>
      NewKeepsStorable(s.dicts);
      PutKeepsStorable(NewDict(s.dicts), GroupAt(s, indentation), name, Ref(|s.dicts|));
    case Setting(indentation, name, value) =>
      PutKeepsStorable(s.dicts, GroupAt(s, indentation), name, Leaf(ValueNode(value)));
  }

  lemma NewKeepsStorable(dicts: seq<map<string, Item>>)
    requires Forward(dicts) && AllStorable(dicts)
    ensures AllStorable(NewDict(dicts))
  {
  }

  lemma {:induction false} RunKeepsStorable(lines: seq<string>, s: LoadState)
    requires Valid(s) && AllStorable(s.dicts) && AllTame(lines)
    ensures Run(lines, s).Ok? ==> AllStorable(Run(lines, s).value.dicts)
    decreases |lines|
  {
    hide LineOf, Step, Tame, AllStorable, LineStorable, Valid;
    if lines != [] {
      LineIsStorable(lines[0]);
      if LineOf(lines[0]).Ok? {
        StepKeepsStorable(s, LineOf(lines[0]).value);
        RunKeepsStorable(lines[1..], Step(s, LineOf(lines[0]).value));
      }
    }
  }

  lemma {:induction false} TreeIsStorable(dicts: seq<map<string, Item>>, item: Item)
    requires Forward(dicts) && AllStorable(dicts)
    requires if item.Ref? then item.dict < |dicts| else Storable(item.value) && Normal(item.value) == item.value
    ensures Storable(ItemTree(dicts, item)) && Normal(ItemTree(dicts, item)) == ItemTree(dicts, item)
    decreases if item.Ref? then |dicts| - item.dict else 0
  {
    if item.Ref? {
      var m := dicts[item.dict];
      forall k | k in m
        ensures Storable(ItemTree(dicts, m[k])) && Normal(ItemTree(dicts, m[k])) == ItemTree(dicts, m[k])
      {
        TreeIsStorable(dicts, m[k]);
      }
      var tree := ItemTree(dicts, item);
      assert forall k :: k in m ==> tree.m[k] == ItemTree(dicts, m[k]);
      assert Normal(tree).m == tree.m;
    }
  }

  lemma {:induction false} NormalIsStorable(data: Node)
    requires Printable(data)
    ensures Storable(Normal(data)) <==> Storable(data)
  {
    if data.Dict? {
      forall k | k in data.m ensures Storable(Normal(data.m[k])) <==> Storable(data.m[k]) {
        NormalIsStorable(data.m[k]);
      }
      assert forall k :: k in data.m ==> Normal(data).m[k] == Normal(data.m[k]);
    }
  }

  /** Whatever was printed, what its file is loaded as can be stored, and has no empty list. */
  lemma LoadedIsStorable(data: Node, sep: string)
    requires data.Dict? && Printable(data) && LineSeparator(sep) && Loaded(FileText(data, sep)).Ok?
    ensures var once := Loaded(FileText(data, sep)).value;
            once.Dict? && Storable(once) && Normal(once) == once
  {
    hide Lines, FileText, FileLines, Run, Storable, Normal, Printable;
    var s := Initial();
    FileRun(data, sep, s);
    LinesAreTame(data, 0, sep);
    RunKeepsStorable(Ended(Lines(data, 0), sep), s);
    var t := Run(Ended(Lines(data, 0), sep), s).value;
    TreeIsStorable(t.dicts, Ref(0));
  }

  /** The file made from a tree of data gives back its normal form if and only if the data is
      storable, whichever line separator the platform uses. */
  lemma RoundTrip(data: Node, sep: string)
    requires data.Dict? && Printable(data) && LineSeparator(sep)
    ensures Loaded(FileText(data, sep)) == Ok(Normal(data)) <==> Storable(data)
  {
    hide Lines, FileText, FileLines, Run, Storable, Normal, Printable;
    if Storable(data) {
      StoredDataIsLoaded(data, sep);
    }
    if Loaded(FileText(data, sep)) == Ok(Normal(data)) {
      LoadedIsStorable(data, sep);
      NormalIsStorable(data);
    }
  }

  /** Of any data that can be printed and whose file loads, after one save and load, saving and loading again changes
      neither the data nor the file. */
  lemma SecondCycleChangesNothing(data: Node, sep: string)
    requires data.Dict? && Printable(data) && LineSeparator(sep) && Loaded(FileText(data, sep)).Ok?
    ensures var once := Loaded(FileText(data, sep)).value;
            && once.Dict? && Printable(once)
            && Loaded(FileText(once, sep)) == Ok(once)
  {
    hide FileText, Loaded, Storable;
    LoadedIsStorable(data, sep);
    var once := Loaded(FileText(data, sep)).value;
    StorableIsPrintable(once);
    StoredDataIsLoaded(once, sep);
  }
}
