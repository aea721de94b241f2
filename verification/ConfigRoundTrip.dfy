/** Printing and parsing are inverse: which configuration data a file gives back. */
module ConfigRoundTrip {
  import opened Wrappers
  import opened ConfigText
  import opened ConfigFile
  import opened NameOrder

  // ---------------------------------------------------------------- one line

  predicate AsciiBlank(t: string) {
    forall c :: c in t ==> IsAsciiSpace(c)
  }

  lemma {:induction false} RStripKeeps(x: string, t: string)
    requires x == "" || !IsAsciiSpace(x[|x| - 1])
    requires AsciiBlank(t)
    ensures RStrip(x + t) == x
  {
    if t == "" {
      assert x + t == x;
    } else {
      var u := t[..|t| - 1];
      assert (x + t)[..|x + t| - 1] == x + u;
      assert forall c :: c in u ==> c in t;
      RStripKeeps(x, u);
    }
  }

  lemma {:induction false} LeadingSpacesCounts(n: nat, x: string)
    requires x != "" && !IsSpace(x[0])
    ensures |Spaces(n)| == n && LeadingSpaces(Spaces(n) + x) == n
  {
    if n == 0 {
      assert Spaces(n) + x == x;
    } else {
      LeadingSpacesCounts(n - 1, x);
      assert (Spaces(n) + x)[1..] == Spaces(n - 1) + x;
    }
  }

  lemma NameParsed(level: nat, name: string, tail: string, t: string)
    requires Representable(name)
    requires tail != "" && !IsAsciiSpace(tail[|tail| - 1]) && AsciiBlank(t)
    ensures var raw := Spaces(4 * level) + Escape(name) + tail;
            && RStrip(raw + t) == raw
            && LeadingSpaces(raw) == 4 * level
            && Advance(raw) == Escape(name) + tail
            && Token(Advance(raw), ":=", None) == Prepend(name, Token(tail, ":=", None))
  {
    var body := Escape(name) + tail;
    var raw := Spaces(4 * level) + Escape(name) + tail;
    assert raw == Spaces(4 * level) + body;
    EscapeEnds(name);
    LeadingSpacesCounts(4 * level, body);
    assert raw[4 * level..] == body;
    RStripKeeps(raw, t);
    TokenOfEscape(name, tail, ":=");
  }

  /** What a line whose name is followed by a separator is parsed as. */
  function Remainder(level: nat, name: string, separator: char, value: string): Result<Line, ParseError> {
    if value == "" then Ok(if separator == ':' then Section(4 * level, name) else Setting(4 * level, name, Absent))
    else if separator == ':' then Err(UnexpectedAfterColon)
    else if Values(value, None).Err? then Err(Values(value, None).error)
    else Ok(Setting(4 * level, name, Values(value, None).value))
  }

  lemma LineOfParts(line: string, raw: string, body: string, level: nat, name: string, rest: string)
    requires RStrip(line) == raw && LeadingSpaces(raw) == 4 * level && Advance(raw) == body && body != ""
    requires Token(body, ":=", None) == Ok((name, rest)) && name != ""
    requires Advance(rest) == rest && rest != "" && rest[0] in ":="
    ensures LineOf(line) == Remainder(level, name, rest[0], Advance(rest[1..]))
  {
    hide Token, Advance, RStrip, LeadingSpaces, Values;
  }

  lemma LineParsed(level: nat, name: string, tail: string, t: string, rest: string)
    requires Representable(name) && name != ""
    requires tail != "" && !IsAsciiSpace(tail[|tail| - 1]) && AsciiBlank(t)
    requires Token(tail, ":=", None) == Ok(("", rest)) && Advance(rest) == rest && rest != "" && rest[0] in ":="
    ensures LineOf(Spaces(4 * level) + Escape(name) + tail + t) == Remainder(level, name, rest[0], Advance(rest[1..]))
  {
    hide Token, Advance, RStrip, LeadingSpaces, Escape, Spaces, Values, IsAsciiSpace, Representable, AsciiBlank,
        IsSpace, LineOf;
    var raw := Spaces(4 * level) + Escape(name) + tail;
    NameParsed(level, name, tail, t);
    EscapeEnds(name);
    assert name + "" == name;
    LineOfParts(raw + t, raw, Escape(name) + tail, level, name, rest);
  }

  /** The separators, with nothing after them. */
  lemma SeparatorsParsed()
    ensures Token(":", ":=", None) == Ok(("", ":")) && Advance(":") == ":" && ":"[1..] == "" && !IsAsciiSpace(':')
    ensures Token(" =", ":=", None) == Ok(("", "=")) && Advance("=") == "=" && "="[1..] == "" && !IsAsciiSpace('=')
    ensures Advance("") == "" && ","[1..] == ""
  {
    assert " ="[1..] == "=";
  }

  lemma SectionParsed(level: nat, name: string, t: string)
    requires Representable(name) && name != "" && AsciiBlank(t)
    ensures LineOf(SectionLine(level, name) + t) == Ok(Section(4 * level, name))
  {
    hide Token, Advance, LineOf, Escape, Representable, AsciiBlank, IsAsciiSpace;
    SeparatorsParsed();
    LineParsed(level, name, ":", t, ":");
  }

  lemma AbsentParsed(level: nat, name: string, t: string)
    requires Representable(name) && name != "" && AsciiBlank(t)
    ensures LineOf(Spaces(4 * level) + Escape(name) + " =" + t) == Ok(Setting(4 * level, name, Absent))
  {
    hide Token, Advance, LineOf, Escape, Representable, AsciiBlank, IsAsciiSpace;
    SeparatorsParsed();
    LineParsed(level, name, " =", t, "=");
  }

  lemma ValueParsed(level: nat, name: string, text: string, t: string)
    requires Representable(name) && name != "" && AsciiBlank(t)
    requires text != "" && !IsSpace(text[0]) && text[0] != '#' && !IsAsciiSpace(text[|text| - 1])
    requires Values(text, None).Ok?
    ensures LineOf(Spaces(4 * level) + Escape(name) + (" = " + text) + t) ==
        Ok(Setting(4 * level, name, Values(text, None).value))
  {
    hide Token, Advance, LineOf, Escape, Representable, AsciiBlank, Values, IsSpace, IsAsciiSpace, Spaces;
    var tail, rest := " = " + text, "= " + text;
    EqualsParsed(text);
    SpacesDropped(text);
    assert rest[1..] == " " + text;
    assert tail[|tail| - 1] == text[|text| - 1];
    assert rest[0] == '=';
    LineParsed(level, name, tail, t, rest);
  }

  lemma EqualsParsed(text: string)
    ensures Token(" = " + text, ":=", None) == Ok(("", "= " + text)) && Advance("= " + text) == "= " + text
  {
    assert (" = " + text)[1..] == "= " + text;
  }

  lemma SpacesDropped(text: string)
    requires text != "" && !IsSpace(text[0]) && text[0] != '#'
    ensures Advance(" " + text) == text && Advance(text) == text
  {
    assert (" " + text)[1..] == text;
    assert (" " + text)[LeadingSpaces(" " + text)..] == text;
  }

  predicate AllRepresentable(items: seq<string>) {
    forall i :: 0 <= i < |items| ==> Representable(items[i])
  }

  lemma JoinEscapedEnds(items: seq<string>)
    requires items != [] && AllRepresentable(items)
    ensures var text := JoinEscaped(items);
            text != "" && !IsSpace(text[0]) && text[0] != '#' && !IsAsciiSpace(text[|text| - 1])
  {
    EscapeEnds(items[0]);
    EscapeLast(items[0]);
    if |items| > 1 {
      JoinEscapedEnds(items[1..]);
    }
  }

  lemma FirstItemParsed(item: string, rest: string)
    requires Representable(item) && rest != "" && rest[0] == ','
    ensures Token(Escape(item) + rest, ",", None) == Ok((item, rest)) && Advance(rest) == rest
  {
    assert Token(rest, ",", None) == Ok(("", rest)) && Advance(rest) == rest;
    assert item + "" == item;
    assert forall c :: c in "," ==> IsEscapeChar(c) && c !in "'\"";
    hide Token, Advance, Escape, Representable;
    TokenOfEscape(item, rest, ",");
  }

  lemma ValuesStep(line: string, item: string, rest: string, next: string, before: Option<seq<string>>)
    requires Token(line, ",", None) == Ok((item, rest))
    requires rest != "" && rest[0] == ',' && Advance(rest) == rest && Advance(rest[1..]) == next
    ensures var more := (if before.Some? then before.value else []) + [item];
            Values(line, before) == if next == "" then Ok(List(more)) else Values(next, Some(more))
  {
  }

  lemma CommaParsed(item: string, text: string, before: Option<seq<string>>)
    requires Representable(item)
    requires text != "" && !IsSpace(text[0]) && text[0] != '#'
    ensures Values(Escape(item) + ", " + text, before) ==
        Values(text, Some((if before.Some? then before.value else []) + [item]))
  {
    hide *;
    var rest := ", " + text;
    var line := Escape(item) + ", " + text;
    assert Token(line, ",", None) == Ok((item, rest)) && Advance(rest) == rest by {
      FirstItemParsed(item, rest);
      assert line == Escape(item) + rest;
    }
    assert Advance(rest[1..]) == text by {
      assert rest[1..] == " " + text;
      SpacesDropped(text);
    }
    ValuesStep(line, item, rest, text, before);
  }

  lemma {:induction false} ItemsParsed(items: seq<string>, before: seq<string>)
    requires items != [] && AllRepresentable(items)
    ensures Values(JoinEscaped(items), Some(before)) == Ok(List(before + items))
  {
    if |items| == 1 {
      TokenOfEscape(items[0], "", ",");
      assert Escape(items[0]) + "" == Escape(items[0]) && items[0] + "" == items[0];
      assert items == [items[0]];
    } else {
      JoinEscapedEnds(items[1..]);
      CommaParsed(items[0], JoinEscaped(items[1..]), Some(before));
      ItemsParsed(items[1..], before + [items[0]]);
      assert before + [items[0]] + items[1..] == before + items;
    }
  }

  lemma OneItemParsed(item: string)
    requires Representable(item)
    ensures Values(Escape(item) + ",", None) == Ok(List([item]))
  {
    hide Token, Values, Escape, Representable, Advance;
    FirstItemParsed(item, ",");
    SeparatorsParsed();
    assert [] + [item] == [item];
    ValuesStep(Escape(item) + ",", item, ",", "", None);
  }

  lemma JoinUnfolds(items: seq<string>)
    requires |items| > 1
    ensures JoinEscaped(items) == Escape(items[0]) + ", " + JoinEscaped(items[1..])
  {
  }

  lemma ManyItemsParsed(items: seq<string>)
    requires |items| > 1 && AllRepresentable(items)
    ensures Values(JoinEscaped(items), None) == Ok(List(items))
  {
    hide Token, Values, Escape, Representable, Advance, JoinEscaped, IsSpace, IsAsciiSpace;
    var first, others := items[0], items[1..];
    JoinUnfolds(items);
    assert [first] + others == items && [] + [first] == [first];
    JoinEscapedEnds(others);
    CommaParsed(first, JoinEscaped(others), None);
    ItemsParsed(others, [first]);
  }

  lemma ListParsed(items: seq<string>)
    requires items != [] && AllRepresentable(items)
    ensures Values(ListText(items), None) == Ok(List(items))
  {
    if |items| == 1 {
      OneItemParsed(items[0]);
      assert items == [items[0]];
      hide Values, Representable, Escape;
    } else {
      ManyItemsParsed(items);
      hide Values, Representable, Escape;
      assert JoinEscaped(items) + "" == JoinEscaped(items);
    }
  }

  // ---------------------------------------------------------------- what a file gives back

  /** The data read back from a file: an empty list is indistinguishable from no value. */
  function Normal(data: Node): Node {
    match data
    case Lst(items) => if items == [] then Null else data
    case Dict(m) => Dict(map k | k in m :: Normal(m[k]))
    case _ => data
  }

  /** Data whose names are not empty and whose names and strings the format can carry. */
  predicate Storable(data: Node) {
    match data
    case Null => true
    case Str(s) => Representable(s)
    case Lst(items) => AllRepresentable(items)
    case Dict(m) => forall k :: k in m ==> k != "" && Representable(k) && Storable(m[k])
    case Other => false
  }

  lemma {:induction false} StorableIsPrintable(data: Node)
    requires Storable(data)
    ensures Printable(data)
  {
    if data.Dict? {
      forall k | k in data.m ensures Printable(data.m[k]) { StorableIsPrintable(data.m[k]); }
    }
  }

  /** The value a printed setting is parsed as. */
  function Parsed(data: Node): Value {
    match data
    case Str(s) => Text(s)
    case Lst(items) => if items == [] then Absent else List(items)
    case _ => Absent
  }

  lemma TextParsed(s: string)
    requires Representable(s)
    ensures Values(Escape(s), None) == Ok(Text(s))
  {
    TokenOfEscape(s, "", ",");
    assert Escape(s) + "" == Escape(s) && s + "" == s;
    hide Escape, Representable;
  }

  lemma SettingParsed(level: nat, name: string, data: Node, t: string)
    requires Storable(data) && Printable(data) && !data.Dict? && Representable(name) && name != "" && AsciiBlank(t)
    ensures LineOf(SettingLine(level, name, data) + t) == Ok(Setting(4 * level, name, Parsed(data)))
    ensures ValueNode(Parsed(data)) == Normal(data)
  {
    hide LineOf, Escape, Spaces, Values, Token, Advance, IsSpace, IsAsciiSpace, Representable, JoinEscaped;
    var start := Spaces(4 * level) + Escape(name);
    match data
    case Null =>
      AbsentParsed(level, name, t);
    case Str(s) =>
      EscapeEnds(s);
      EscapeLast(s);
      TextParsed(s);
      ValueParsed(level, name, Escape(s), t);
    case Lst(items) =>
      if items == [] {
        assert start + (" = " + "") + t == start + " =" + (" " + t);
        BlankMore(t);
        NoItems();
        AbsentParsed(level, name, " " + t);
      } else {
        ListTextEnds(items);
        ListParsed(items);
        ValueParsed(level, name, ListText(items), t);
      }
  }

  lemma BlankMore(t: string)
    requires AsciiBlank(t)
    ensures AsciiBlank(" " + t)
  {
  }

  lemma NoItems()
    ensures ListText([]) == ""
  {
  }

  lemma ListTextEnds(items: seq<string>)
    requires items != [] && AllRepresentable(items)
    ensures var text := ListText(items);
            text != "" && !IsSpace(text[0]) && text[0] != '#' && !IsAsciiSpace(text[|text| - 1])
  {
    JoinEscapedEnds(items);
  }

  // ---------------------------------------------------------------- running over many lines

  /** Lines with the terminators they have in a file. */
  function Ended(lines: seq<string>, sep: string): (r: seq<string>)
    ensures |r| == |lines|
  {
    seq(|lines|, i requires 0 <= i < |lines| => lines[i] + sep)
  }

  lemma EndedConcat(a: seq<string>, b: seq<string>, sep: string)
    ensures Ended(a + b, sep) == Ended(a, sep) + Ended(b, sep)
  {
  }

  lemma {:induction false} RunConcat(a: seq<string>, b: seq<string>, s: LoadState)
    requires Valid(s)
    ensures Run(a + b, s) == if Run(a, s).Ok? then Run(b, Run(a, s).value) else Run(a, s)
  {
    if a == [] {
      assert a + b == b;
    } else {
      assert (a + b)[1..] == a[1..] + b;
      if LineOf(a[0]).Ok? {
        RunConcat(a[1..], b, Step(s, LineOf(a[0]).value));
      }
    }
  }

  lemma RunLast(lines: seq<string>, raw: string, s: LoadState)
    requires Valid(s) && Run(lines, s).Ok? && LineOf(raw).Ok?
    ensures Run(lines + [raw], s) == Ok(Step(Run(lines, s).value, LineOf(raw).value))
  {
    hide LineOf, Step;
    RunConcat(lines, [raw], s);
    var t := Step(Run(lines, s).value, LineOf(raw).value);
    assert Run([raw][1..], t) == Ok(t);
  }

  lemma {:induction false} PopPop(stack: seq<GroupState>, low: nat, high: nat)
    requires 0 < |stack| && stack[|stack| - 1].indentation < 0 && low <= high
    ensures PopTo(PopTo(stack, high), low) == PopTo(stack, low)
  {
    if stack[0].indentation >= high {
      PopPop(stack[1..], low, high);
    }
  }

  lemma PopSame(s: LoadState, level: nat)
    requires Valid(s)
    ensures 0 < |s.stack| && s.stack[|s.stack| - 1].indentation < 0
    ensures PopTo(PopTo(s.stack, 4 * level), 4 * level) == PopTo(s.stack, 4 * level)
  {
    PopPop(s.stack, 4 * level, 4 * level);
  }

  /** The dictionaries from `d` on are all that the tree of `d` depends on. */
  lemma {:induction false} TreeStable(a: seq<map<string, Item>>, b: seq<map<string, Item>>, item: Item)
    requires Forward(a) && Forward(b) && |a| <= |b|
    requires item.Ref? ==> item.dict < |a| && forall i :: item.dict <= i < |a| ==> a[i] == b[i]
    ensures ItemTree(a, item) == ItemTree(b, item)
    decreases if item.Ref? then |a| - item.dict else 0
  {
    if item.Ref? {
      var d := item.dict;
      forall k | k in a[d] ensures ItemTree(a, a[d][k]) == ItemTree(b, b[d][k]) {
        TreeStable(a, b, a[d][k]);
      }
    }
  }

  /** Entry `k` of dictionary `d` holds the normal form of `data`, in dictionaries from `base` on. */
  ghost predicate Holds(dicts: seq<map<string, Item>>, d: nat, k: string, data: Node, base: nat)
    requires Forward(dicts) && d < |dicts|
  {
    && k in dicts[d]
    && (dicts[d][k].Ref? ==> base <= dicts[d][k].dict)
    && ItemTree(dicts, dicts[d][k]) == Normal(data)
  }

  /** Dictionary `d` of `b` has exactly the entries `names` of `m` added to what it had in `a`;
      nothing else in `a` changed. */
  ghost predicate Grown(a: seq<map<string, Item>>, b: seq<map<string, Item>>, d: nat, names: set<string>,
      m: map<string, Node>)
    requires d < |a|
  {
    && Forward(b)
    && |a| <= |b|
    && (forall i :: 0 <= i < |a| && i != d ==> b[i] == a[i])
    && b[d].Keys == a[d].Keys + names
    && (forall k :: k in a[d] && k !in names ==> b[d][k] == a[d][k])
    && (forall k :: k in names ==> k in m && Holds(b, d, k, m[k], |a|))
  }

  lemma GrownThenGrown(a: seq<map<string, Item>>, b: seq<map<string, Item>>, c: seq<map<string, Item>>, d: nat,
                       xs: set<string>, ys: set<string>, m: map<string, Node>)
    requires d < |a| && Grown(a, b, d, xs, m) && Grown(b, c, d, ys, m) && xs !! ys
    ensures Grown(a, c, d, xs + ys, m)
  {
    hide ItemTree, Normal;
    forall k | k in xs + ys ensures k in m && Holds(c, d, k, m[k], |a|) {
      if k in xs {
        assert Holds(b, d, k, m[k], |a|);
        assert c[d][k] == b[d][k];
        TreeStable(b, c, b[d][k]);
      } else {
        assert Holds(c, d, k, m[k], |b|);
      }
    }
  }

  /** Going from `s` to `t` added exactly the entries `names` of `m` to the target of the
      level, and left the groups open outside that level alone. */
  ghost predicate Adds(s: LoadState, t: LoadState, level: nat, names: set<string>, m: map<string, Node>)
    requires Valid(s)
  {
    && Valid(t)
    && PopTo(t.stack, 4 * level) == PopTo(s.stack, 4 * level)
    && Grown(s.dicts, t.dicts, GroupAt(s, 4 * level), names, m)
  }

  lemma AddsNothing(s: LoadState, level: nat, m: map<string, Node>)
    requires Valid(s)
    ensures Adds(s, s, level, {}, m)
  {
    var d := GroupAt(s, 4 * level);
    assert s.dicts[d].Keys + {} == s.dicts[d].Keys;
  }

  lemma AddsThenAdds(s: LoadState, t: LoadState, u: LoadState, level: nat, xs: set<string>, ys: set<string>,
      m: map<string, Node>)
    requires Valid(s) && Adds(s, t, level, xs, m) && Adds(t, u, level, ys, m) && xs !! ys
    ensures Adds(s, u, level, xs + ys, m)
  {
    hide PopTo, Grown, Forward, ValidStack;
    assert GroupAt(t, 4 * level) == GroupAt(s, 4 * level);
    GrownThenGrown(s.dicts, t.dicts, u.dicts, GroupAt(s, 4 * level), xs, ys, m);
  }

  lemma PutGrows(dicts: seq<map<string, Item>>, d: nat, name: string, value: Node, m: map<string, Node>)
    requires Forward(dicts) && d < |dicts| && name in m && value == Normal(m[name])
    ensures Grown(dicts, PutItem(dicts, d, name, Leaf(value)), d, {name}, m)
  {
    var r := PutItem(dicts, d, name, Leaf(value));
    assert r[d].Keys == dicts[d].Keys + {name};
    assert Holds(r, d, name, m[name], |dicts|);
  }

  lemma StepSetting(s: LoadState, level: nat, name: string, value: Value)
    requires Valid(s)
    ensures Step(s, Setting(4 * level, name, value))
         == LoadState(PopTo(s.stack, 4 * level), PutItem(s.dicts, GroupAt(s, 4 * level), name, Leaf(ValueNode(value))))
  {
    hide Forward, PopTo, PutItem;
  }

  lemma SettingAdds(s: LoadState, level: nat, name: string, value: Value, m: map<string, Node>)
    requires Valid(s) && name in m && ValueNode(value) == Normal(m[name])
    ensures Adds(s, Step(s, Setting(4 * level, name, value)), level, {name}, m)
  {
    hide Grown, Forward, PopTo, PutItem, Normal, ValidStack, Step, GroupAt;
    StepSetting(s, level, name, value);
    PopSame(s, level);
    PutGrows(s.dicts, GroupAt(s, 4 * level), name, ValueNode(value), m);
  }

  predicate LineSeparator(sep: string) {
    sep == "\n" || sep == "\r\n"
  }

  predicate Distinct(names: seq<string>) {
    forall i, j :: 0 <= i < j < |names| ==> names[i] != names[j]
  }

  function SettingNames(names: seq<string>, m: map<string, Node>): set<string> {
    set k | k in names && k in m && !m[k].Dict?
  }

  function GroupNames(names: seq<string>, m: map<string, Node>): set<string> {
    set k | k in names && k in m && m[k].Dict?
  }

  /** Names of storable data that appear once each. */
  ghost predicate Listed(names: seq<string>, group: Node) {
    && group.Dict? && Storable(group) && Printable(group)
    && Distinct(names)
    && forall k :: k in names ==> k in group.m && Printable(group.m[k])
  }

  lemma ListedPrefix(names: seq<string>, group: Node)
    requires Listed(names, group) && names != []
    ensures var last := |names| - 1;
            && Listed(names[..last], group)
            && names[last] !in names[..last]
            && SettingNames(names, group.m) ==
                SettingNames(names[..last], group.m) + (if group.m[names[last]].Dict? then {} else {names[last]})
            && GroupNames(names, group.m) ==
                GroupNames(names[..last], group.m) + (if group.m[names[last]].Dict? then {names[last]} else {})
  {
    var last := |names| - 1;
    assert names == names[..last] + [names[last]];
  }

  lemma {:induction false} SettingLinesRun(names: seq<string>, group: Node, level: nat, sep: string, s: LoadState)
    requires Listed(names, group) && Valid(s) && LineSeparator(sep)
    ensures var r := Run(Ended(SettingLines(names, group.m, level), sep), s);
            r.Ok? && Adds(s, r.value, level, SettingNames(names, group.m), group.m)
    decreases |names|
  {
    hide LineOf, Step, Adds, SettingLine, Normal, Parsed;
    if names == [] {
      AddsNothing(s, level, group.m);
      assert SettingNames(names, group.m) == {};
    } else {
      var last := |names| - 1;
      var name, data := names[last], group.m[names[last]];
      ListedPrefix(names, group);
      SettingLinesRun(names[..last], group, level, sep, s);
      var before := SettingLines(names[..last], group.m, level);
      var t := Run(Ended(before, sep), s).value;
      if data.Dict? {
        assert SettingLines(names, group.m, level) == before;
        assert SettingNames(names, group.m) == SettingNames(names[..last], group.m);
      } else {
        var raw := SettingLine(level, name, data) + sep;
        SettingParsed(level, name, data, sep);
        SettingAdds(t, level, name, Parsed(data), group.m);
        var u := Step(t, Setting(4 * level, name, Parsed(data)));
        EndedConcat(before, [SettingLine(level, name, data)], sep);
        assert Ended([SettingLine(level, name, data)], sep) == [raw];
        RunLast(Ended(before, sep), raw, s);
        AddsThenAdds(s, t, u, level, SettingNames(names[..last], group.m), {name}, group.m);
      }
    }
  }

  lemma StackPushed(rest: seq<GroupState>, level: nat, d: nat)
    requires 0 < |rest| && rest[|rest| - 1].indentation < 0 && rest[0].indentation < 4 * level
    ensures var pushed := [GroupState(4 * level, d)] + rest;
            && pushed[|pushed| - 1].indentation < 0
            && PopTo(pushed, 4 * (level + 1)) == pushed
            && PopTo(pushed, 4 * level) == rest
  {
    var pushed := [GroupState(4 * level, d)] + rest;
    assert pushed[1..] == rest;
    assert PopTo(rest, 4 * level) == rest;
  }

  /** Opening a section, filling it at the next level, and what that adds to the group around it. */
  lemma SectionOpened(s: LoadState, level: nat, name: string)
    requires Valid(s)
    ensures var u := Step(s, Section(4 * level, name));
            && u.dicts == PutItem(NewDict(s.dicts), GroupAt(s, 4 * level), name, Ref(|s.dicts|))
            && u.stack == [GroupState(4 * level, |s.dicts|)] + PopTo(s.stack, 4 * level)
            && PopTo(u.stack, 4 * (level + 1)) == u.stack
            && GroupAt(u, 4 * (level + 1)) == |s.dicts|
            && PopTo(u.stack, 4 * level) == PopTo(s.stack, 4 * level)
  {
    var u, rest := Step(s, Section(4 * level, name)), PopTo(s.stack, 4 * level);
    assert u.dicts == PutItem(NewDict(s.dicts), GroupAt(s, 4 * level), name, Ref(|s.dicts|));
    assert u.stack == [GroupState(4 * level, |s.dicts|)] + rest;
    assert rest[|rest| - 1] == s.stack[|s.stack| - 1];
    hide Step, Forward, PutItem, PopTo, NewDict;
    StackPushed(rest, level, |s.dicts|);
  }

  lemma TreeOfGrown(a: seq<map<string, Item>>, b: seq<map<string, Item>>, d: nat, data: Node)
    requires d < |a| && a[d] == map[] && data.Dict?
    requires Grown(a, b, d, data.m.Keys, data.m)
    ensures ItemTree(b, Ref(d)) == Normal(data)
  {
    assert b[d].Keys == data.m.Keys;
    forall k | k in data.m ensures ItemTree(b, b[d][k]) == Normal(data.m[k]) {
      assert Holds(b, d, k, data.m[k], |a|);
    }
  }

  lemma SubgroupGrows(a: seq<map<string, Item>>, b: seq<map<string, Item>>, c: seq<map<string, Item>>, d: nat,
      name: string, m: map<string, Node>)
    requires Forward(a) && d < |a| && name in m && m[name].Dict?
    requires b == PutItem(NewDict(a), d, name, Ref(|a|))
    requires Grown(b, c, |a|, m[name].m.Keys, m[name].m)
    ensures Grown(a, c, d, {name}, m)
  {
    hide Normal, ItemTree;
    var q := |a|;
    assert b[q] == map[];
    assert c[d] == b[d] == a[d][name := Ref(q)];
    TreeOfGrown(b, c, q, m[name]);
    assert c[d].Keys == a[d].Keys + {name};
    assert Holds(c, d, name, m[name], |a|);
    assert forall i :: 0 <= i < |a| && i != d ==> c[i] == a[i];
  }

  lemma SubgroupAdds(s: LoadState, t: LoadState, level: nat, name: string, m: map<string, Node>)
    requires Valid(s) && name in m && m[name].Dict?
    requires Adds(Step(s, Section(4 * level, name)), t, level + 1, m[name].m.Keys, m[name].m)
    ensures Adds(s, t, level, {name}, m)
  {
    hide Grown, Forward, PutItem, Step;
    var u := Step(s, Section(4 * level, name));
    SectionOpened(s, level, name);
    SubgroupGrows(s.dicts, u.dicts, t.dicts, GroupAt(s, 4 * level), name, m);
    assert PopTo(t.stack, 4 * level) == PopTo(s.stack, 4 * level) by {
      hide PopTo;
      PopPop(t.stack, 4 * level, 4 * (level + 1));
      PopPop(u.stack, 4 * level, 4 * (level + 1));
    }
  }

  lemma BlankParsed(sep: string)
    requires LineSeparator(sep)
    ensures LineOf("" + sep) == Ok(Blank(0))
  {
    assert "" + sep == sep;
    RStripKeeps("", sep);
  }

  lemma {:induction false} GroupLinesRun(names: seq<string>, group: Node, level: nat, sep: string, s: LoadState)
    requires Listed(names, group) && Valid(s) && LineSeparator(sep)
    ensures var r := Run(Ended(GroupLines(names, group, level), sep), s);
            r.Ok? && Adds(s, r.value, level, GroupNames(names, group.m), group.m)
    decreases group, 0, |names|
  {
    hide LineOf, Step, Adds, SectionLine, Normal, Storable, Valid;
    if names == [] {
      AddsNothing(s, level, group.m);
      assert GroupNames(names, group.m) == {};
    } else {
      var last := |names| - 1;
      var name, data := names[last], group.m[names[last]];
      ListedPrefix(names, group);
      GroupLinesRun(names[..last], group, level, sep, s);
      var before := GroupLines(names[..last], group, level);
      var t := Run(Ended(before, sep), s).value;
      if data.Dict? {
        SubgroupRun(name, group, level, sep, t);
        var block := [SectionLine(level, name)] + Lines(data, level + 1) + [""];
        var u := Run(Ended(block, sep), t).value;
        EndedConcat(before, block, sep);
        RunConcat(Ended(before, sep), Ended(block, sep), s);
        AddsThenAdds(s, t, u, level, GroupNames(names[..last], group.m), {name}, group.m);
      } else {
        assert GroupLines(names, group, level) == before;
        assert GroupNames(names, group.m) == GroupNames(names[..last], group.m);
      }
    }
  }

  lemma {:induction false} SubgroupRun(name: string, group: Node, level: nat, sep: string, t: LoadState)
    requires group.Dict? && Storable(group) && Printable(group) && Valid(t) && LineSeparator(sep)
    requires name in group.m && group.m[name].Dict? && Printable(group.m[name])
    ensures var r := Run(Ended([SectionLine(level, name)] + Lines(group.m[name], level + 1) + [""], sep), t);
            r.Ok? && Adds(t, r.value, level, {name}, group.m)
    decreases group, 0, 0
  {
    hide LineOf, Adds, SectionLine, Normal, Valid, Lines, Step, Run, Ended, Storable, Printable, LineSeparator,
        Representable;
    var data := group.m[name];
    StorableEntry(group, name);
    BlankSeparator(sep);
    var header, body := SectionLine(level, name), Lines(data, level + 1);
    SectionParsed(level, name, sep);
    RunOne(header + sep, t);
    EndedOne(header, sep);
    var u := Step(t, Section(4 * level, name));
    LinesRun(data, level + 1, sep, u);
    var v := Run(Ended(body, sep), u).value;
    EndedConcat([header], body, sep);
    RunConcat(Ended([header], sep), Ended(body, sep), t);
    BlankParsed(sep);
    BlankSteps(v);
    EndedConcat([header] + body, [""], sep);
    EndedOne("", sep);
    RunLast(Ended([header] + body, sep), "" + sep, t);
    SubgroupAdds(t, v, level, name, group.m);
  }

  lemma StorableEntry(group: Node, name: string)
    requires group.Dict? && Storable(group) && name in group.m
    ensures Storable(group.m[name]) && Representable(name) && name != ""
  {
  }

  lemma BlankSeparator(sep: string)
    requires LineSeparator(sep)
    ensures AsciiBlank(sep)
  {
  }

  lemma RunOne(raw: string, s: LoadState)
    requires Valid(s) && LineOf(raw).Ok?
    ensures Run([raw], s) == Ok(Step(s, LineOf(raw).value))
  {
    hide LineOf, Step, Valid;
    var t := Step(s, LineOf(raw).value);
    assert Run([raw][1..], t) == Ok(t);
  }

  lemma EndedOne(line: string, sep: string)
    ensures Ended([line], sep) == [line + sep]
  {
  }

  lemma BlankSteps(s: LoadState)
    requires Valid(s)
    ensures Step(s, Blank(0)) == s
  {
  }

  /** Reading the lines a group was printed as adds exactly the group, in normal form, to the
      group that is open at their level. */
  lemma {:induction false} LinesRun(group: Node, level: nat, sep: string, s: LoadState)
    requires group.Dict? && Storable(group) && Printable(group) && Valid(s) && LineSeparator(sep)
    ensures var r := Run(Ended(Lines(group, level), sep), s);
            r.Ok? && Adds(s, r.value, level, group.m.Keys, group.m)
    decreases group, 1
  {
    hide Adds, Valid, Step, LineOf, Storable;
    var names := SortedNames(group.m.Keys);
    assert Listed(names, group);
    SettingLinesRun(names, group, level, sep, s);
    var settings, groups := SettingLines(names, group.m, level), GroupLines(names, group, level);
    var t := Run(Ended(settings, sep), s).value;
    GroupLinesRun(names, group, level, sep, t);
    var u := Run(Ended(groups, sep), t).value;
    EndedConcat(settings, groups, sep);
    RunConcat(Ended(settings, sep), Ended(groups, sep), s);
    var xs, ys := SettingNames(names, group.m), GroupNames(names, group.m);
    AddsThenAdds(s, t, u, level, xs, ys, group.m);
    assert xs + ys == group.m.Keys;
  }

  // ---------------------------------------------------------------- the lines of a file

  lemma {:induction false} BodyHasNoNewline(s: string)
    ensures '\n' !in EscapedBody(s)
  {
    if s != [] {
      BodyHasNoNewline(s[1..]);
    }
  }

  lemma EscapeHasNoNewline(s: string)
    ensures '\n' !in Escape(s)
  {
    SubstitutionIsCharwise(s);
    BodyHasNoNewline(s);
  }

  lemma {:induction false} SpacesHaveNoNewline(n: nat)
    ensures '\n' !in Spaces(n)
  {
    if n != 0 {
      SpacesHaveNoNewline(n - 1);
    }
  }

  lemma {:induction false} JoinHasNoNewline(items: seq<string>)
    ensures '\n' !in JoinEscaped(items)
  {
    if items != [] {
      EscapeHasNoNewline(items[0]);
      JoinHasNoNewline(items[1..]);
    }
  }

  predicate SingleLines(lines: seq<string>) {
    forall i :: 0 <= i < |lines| ==> '\n' !in lines[i]
  }

  lemma SettingIsSingleLine(level: nat, name: string, data: Node)
    requires Printable(data) && !data.Dict?
    ensures '\n' !in SettingLine(level, name, data)
  {
    hide Escape, Spaces, JoinEscaped;
    SpacesHaveNoNewline(4 * level);
    EscapeHasNoNewline(name);
    match data
    case Null =>
    case Str(s) => EscapeHasNoNewline(s);
    case Lst(items) => JoinHasNoNewline(items);
  }

  lemma {:induction false} SettingsAreSingleLines(names: seq<string>, m: map<string, Node>, level: nat)
    requires forall k :: k in names ==> k in m && Printable(m[k])
    ensures SingleLines(SettingLines(names, m, level))
  {
    if names != [] {
      var last := |names| - 1;
      SettingsAreSingleLines(names[..last], m, level);
      if !m[names[last]].Dict? {
        SettingIsSingleLine(level, names[last], m[names[last]]);
      }
    }
  }

  lemma {:induction false} GroupsAreSingleLines(names: seq<string>, group: Node, level: nat)
    requires group.Dict?
    requires forall k :: k in names ==> k in group.m && Printable(group.m[k])
    ensures SingleLines(GroupLines(names, group, level))
    decreases group, 0, |names|
  {
    if names != [] {
      var last := |names| - 1;
      GroupsAreSingleLines(names[..last], group, level);
      if group.m[names[last]].Dict? {
        LinesAreSingle(group.m[names[last]], level + 1);
        SpacesHaveNoNewline(4 * level);
        EscapeHasNoNewline(names[last]);
        assert '\n' !in SectionLine(level, names[last]) by { hide Escape, Spaces; }
      }
    }
  }

  lemma {:induction false} LinesAreSingle(group: Node, level: nat)
    requires group.Dict? && Printable(group)
    ensures SingleLines(Lines(group, level))
    decreases group, 1
  {
    var names := SortedNames(group.m.Keys);
    SettingsAreSingleLines(names, group.m, level);
    GroupsAreSingleLines(names, group, level);
  }

  lemma {:induction false} FirstFileLine(x: string, rest: string)
    requires '\n' !in x
    ensures FileLines(x + "\n" + rest) == [x + "\n"] + FileLines(rest)
  {
    var text := x + "\n" + rest;
    if x == "" {
      assert text[1..] == rest;
      assert "" + "\n" == "\n";
    } else {
      assert text[1..] == x[1..] + "\n" + rest;
      FirstFileLine(x[1..], rest);
      assert [x[0]] + (x[1..] + "\n") == x + "\n";
    }
  }

  lemma {:induction false} FileLinesOfJoined(lines: seq<string>, sep: string)
    requires lines != [] && SingleLines(lines) && LineSeparator(sep)
    ensures FileLines(JoinLines(lines, sep) + sep) == Ended(lines, sep)
  {
    var stem := sep[..|sep| - 1];
    var x := lines[0] + stem;
    var rest := if |lines| == 1 then "" else JoinLines(lines[1..], sep) + sep;
    assert x + "\n" == lines[0] + sep;
    assert JoinLines(lines, sep) + sep == x + "\n" + rest;
    FirstFileLine(x, rest);
    if |lines| > 1 {
      FileLinesOfJoined(lines[1..], sep);
    } else {
      assert FileLines(rest) == [];
    }
  }

  lemma FileLinesOfText(data: Node, sep: string)
    requires data.Dict? && Printable(data) && LineSeparator(sep)
    ensures FileLines(FileText(data, sep)) == if Lines(data, 0) == [] then [sep] else Ended(Lines(data, 0), sep)
  {
    hide Lines;
    LinesAreSingle(data, 0);
    if Lines(data, 0) == [] {
      FirstFileLine(sep[..|sep| - 1], "");
      assert FileText(data, sep) == sep == sep[..|sep| - 1] + "\n" + "";
      assert sep[..|sep| - 1] + "\n" == sep && [sep] + [] == [sep];
    } else {
      FileLinesOfJoined(Lines(data, 0), sep);
    }
  }

  lemma SeparatorRun(sep: string, s: LoadState)
    requires Valid(s) && LineSeparator(sep)
    ensures Run([sep], s) == Ok(s)
  {
    hide Valid;
    BlankParsed(sep);
    assert "" + sep == sep;
    BlankSteps(s);
    assert [sep][1..] == [];
  }

  lemma FileRun(data: Node, sep: string, s: LoadState)
    requires data.Dict? && Printable(data) && LineSeparator(sep) && Valid(s)
    ensures Run(FileLines(FileText(data, sep)), s) == Run(Ended(Lines(data, 0), sep), s)
  {
    hide Lines, LineOf, Valid, FileText, FileLines, Step;
    FileLinesOfText(data, sep);
    if Lines(data, 0) == [] {
      SeparatorRun(sep, s);
    }
  }

  lemma InitialTarget()
    ensures GroupAt(Initial(), 0) == 0
  {
  }

  /** A saved file is read back as the normal form of the data it was made from. */
  lemma StoredDataIsLoaded(data: Node, sep: string)
    requires data.Dict? && Storable(data) && LineSeparator(sep)
    ensures Printable(data) && Loaded(FileText(data, sep)) == Ok(Normal(data))
  {
    hide Run, Lines, FileText, FileLines, Valid, GroupAt, Storable, PopTo, Grown, ItemTree, Normal, Printable;
    StorableIsPrintable(data);
    var s := Initial();
    FileRun(data, sep, s);
    LinesRun(data, 0, sep, s);
    InitialTarget();
    var t := Run(Ended(Lines(data, 0), sep), s).value;
    TreeOfGrown(s.dicts, t.dicts, 0, data);
  }
}
