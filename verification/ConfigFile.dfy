/** The configuration file backend: printing nested dictionaries as indented lines, and
    rebuilding them from a file with a stack of open groups. */
module ConfigFile {
  import opened Wrappers
  import opened ConfigText
  import opened NameOrder

  /** Configuration data. `Other` stands for any object the format has no form for. */
  datatype Node = Null | Str(s: string) | Lst(items: seq<string>) | Dict(m: map<string, Node>) | Other

  datatype BuilderError = UnexpectedObject

  // ---------------------------------------------------------------- printing

  function Spaces(n: nat): string {
    if n == 0 then "" else [' '] + Spaces(n - 1)
  }

  function JoinEscaped(items: seq<string>): string {
    if items == [] then ""
    else if |items| == 1 then Escape(items[0])
    else Escape(items[0]) + ", " + JoinEscaped(items[1..])
  }

  function ListText(items: seq<string>): string {
    JoinEscaped(items) + if |items| == 1 then "," else ""
  }

  predicate Printable(data: Node) {
    match data
    case Dict(m) => forall k :: k in m ==> Printable(m[k])
    case Other => false
    case _ => true
  }

  function SectionLine(level: nat, name: string): string {
    Spaces(4 * level) + Escape(name) + ":"
  }

  function SettingLine(level: nat, name: string, data: Node): string
    requires Printable(data) && !data.Dict?
  {
    Spaces(4 * level) + Escape(name) + match data
      case Null => " ="
      case Str(s) => " = " + Escape(s)
      case Lst(items) => " = " + ListText(items)
  }

  function SettingLines(names: seq<string>, m: map<string, Node>, level: nat): seq<string>
    requires forall k :: k in names ==> k in m && Printable(m[k])
  {
    if names == [] then []
    else
      var last := |names| - 1;
      SettingLines(names[..last], m, level)
      + if m[names[last]].Dict? then [] else [SettingLine(level, names[last], m[names[last]])]
  }

  function GroupLines(names: seq<string>, group: Node, level: nat): seq<string>
    requires group.Dict?
    requires forall k :: k in names ==> k in group.m && Printable(group.m[k])
    decreases group, 0, |names|
  {
    if names == [] then []
    else
      var last := |names| - 1;
      var data := group.m[names[last]];
      GroupLines(names[..last], group, level)
      + if data.Dict? then [SectionLine(level, names[last])] + Lines(data, level + 1) + [""] else []
  }

  /** The lines a group is printed as: its settings by name, then its subgroups by name. */
  function Lines(group: Node, level: nat): seq<string>
    requires group.Dict? && Printable(group)
    decreases group, 1
  {
    var names := SortedNames(group.m.Keys);
    SettingLines(names, group.m, level) + GroupLines(names, group, level)
  }

  lemma NoLines(group: Node, level: nat)
    requires group.Dict?
    ensures SettingLines([], group.m, level) == GroupLines([], group, level) == []
  {
  }

  lemma NextLines(names: seq<string>, group: Node, level: nat, i: nat)
    requires group.Dict? && i < |names|
    requires forall k :: k in names[..i + 1] ==> k in group.m && Printable(group.m[k])
    requires forall k :: k in names[..i] ==> k in group.m && Printable(group.m[k])
    ensures var data := group.m[names[i]];
            && names[i] in names[..i + 1]
            && SettingLines(names[..i + 1], group.m, level) ==
               SettingLines(names[..i], group.m, level)
               + (if data.Dict? then [] else [SettingLine(level, names[i], data)])
            && GroupLines(names[..i + 1], group, level) ==
               GroupLines(names[..i], group, level)
               + if data.Dict? then [SectionLine(level, names[i])] + Lines(data, level + 1) + [""] else []
  {
    hide SettingLine, SectionLine, Lines;
    var next := names[..i + 1];
    assert next[..i] == names[..i] && next[i] == names[i];
  }

  method BuildGroup(group: Node, level: nat) returns (r: Result<seq<string>, BuilderError>)
    requires group.Dict?
    ensures r == if Printable(group) then Ok(Lines(group, level)) else Err(UnexpectedObject)
    decreases group
  {
    hide SettingLine, SectionLine, SettingLines, GroupLines;
    var settingLines: seq<string> := [];
    var groupLines: seq<string> := [];
    var names := SortedNames(group.m.Keys);
    assert names[..0] == [];
    NoLines(group, level);
    for i := 0 to |names|
      invariant forall k :: k in names[..i] ==> k in group.m && Printable(group.m[k])
      invariant settingLines == SettingLines(names[..i], group.m, level)
      invariant groupLines == GroupLines(names[..i], group, level)
    {
      var name := names[i];
      assert name in names && names[..i + 1] == names[..i] + [name];
      var data := group.m[name];
      if data.Dict? {
        var sub := BuildGroup(data, level + 1);
        if sub.Err? {
          return Err(sub.error);
        }
        groupLines := groupLines + ([SectionLine(level, name)] + sub.value + [""]);
      } else if data.Other? {
        return Err(UnexpectedObject);
      } else {
        settingLines := settingLines + [SettingLine(level, name, data)];
      }
      NextLines(names, group, level, i);
    }
    assert names[..|names|] == names;
    r := Ok(settingLines + groupLines);
  }

  function JoinLines(lines: seq<string>, linesep: string): string {
    if lines == [] then "" else if |lines| == 1 then lines[0] else lines[0] + linesep + JoinLines(lines[1..], linesep)
  }

  /** The text of the file for a tree of data. */
  function FileText(data: Node, linesep: string): string
    requires data.Dict? && Printable(data)
  {
    JoinLines(Lines(data, 0), linesep) + linesep
  }

  method Save(data: Node, linesep: string) returns (r: Result<string, BuilderError>)
    requires data.Dict?
    ensures r == if Printable(data) then Ok(FileText(data, linesep)) else Err(UnexpectedObject)
  {
    var lines := BuildGroup(data, 0);
    match lines
    case Ok(lines) => r := Ok(JoinLines(lines, linesep) + linesep);
    case Err(e) => r := Err(e);
  }

  // ---------------------------------------------------------------- loading

  /** A dictionary entry: a plain value, or a reference to another dictionary. */
  datatype Item = Leaf(value: Node) | Ref(dict: nat)

  /** An open group: its indentation and the dictionary that collects its entries. */
  datatype GroupState = GroupState(indentation: int, data: nat)

  /** The dictionaries created so far, shared by reference between the stack of open groups
      (innermost first) and the entries that point to them. */
  datatype LoadState = LoadState(stack: seq<GroupState>, dicts: seq<map<string, Item>>)

  /** References point from older to newer dictionaries. */
  ghost predicate Forward(dicts: seq<map<string, Item>>) {
    forall i, k :: 0 <= i < |dicts| && k in dicts[i] && dicts[i][k].Ref? ==> i < dicts[i][k].dict < |dicts|
  }

  /** The stack ends in the root group and gets strictly less indented towards it. */
  ghost predicate ValidStack(stack: seq<GroupState>, count: nat) {
    && 0 < |stack|
    && stack[|stack| - 1] == GroupState(-1, 0)
    && (forall i :: 0 <= i < |stack| ==> stack[i].data < count)
    && (forall i :: 0 < i < |stack| ==> stack[i].indentation < stack[i - 1].indentation)
  }

  ghost predicate Valid(s: LoadState) {
    Forward(s.dicts) && ValidStack(s.stack, |s.dicts|)
  }

  /** The state before the first line: the root group, empty. */
  function Initial(): (s: LoadState)
    ensures Valid(s) && s.stack == [GroupState(-1, 0)] && s.dicts == [map[]]
  {
    LoadState([GroupState(-1, 0)], [map[]])
  }

  /** An entry as plain nested data. */
  function ItemTree(dicts: seq<map<string, Item>>, item: Item): Node
    requires Forward(dicts)
    requires item.Ref? ==> item.dict < |dicts|
    decreases if item.Ref? then |dicts| - item.dict else 0
  {
    match item
    case Leaf(value) => value
    case Ref(d) => Dict(map k | k in dicts[d] :: ItemTree(dicts, dicts[d][k]))
  }

  /** Drops the groups a line of the given indentation is not part of. */
  function PopTo(stack: seq<GroupState>, indentation: nat): (r: seq<GroupState>)
    requires 0 < |stack| && stack[|stack| - 1].indentation < 0
    ensures 0 < |r| <= |stack| && r == stack[|stack| - |r|..]
    ensures r[0].indentation < indentation
  {
    if stack[0].indentation >= indentation then PopTo(stack[1..], indentation) else stack
  }

  lemma {:induction false} PopValid(stack: seq<GroupState>, indentation: nat, count: nat)
    requires ValidStack(stack, count)
    ensures ValidStack(PopTo(stack, indentation), count)
  {
    if stack[0].indentation >= indentation {
      TailValid(stack, count);
      PopValid(stack[1..], indentation, count);
    }
  }

  lemma TailValid(stack: seq<GroupState>, count: nat)
    requires ValidStack(stack, count) && stack[0].indentation >= 0
    ensures ValidStack(stack[1..], count)
  {
    var tail := stack[1..];
    forall i | 0 < i < |tail| ensures tail[i].indentation < tail[i - 1].indentation {
      assert tail[i] == stack[i + 1] && tail[i - 1] == stack[i];
    }
  }

  lemma PushValid(stack: seq<GroupState>, g: GroupState, count: nat, count': nat)
    requires ValidStack(stack, count) && count <= count'
    requires g.indentation > stack[0].indentation && g.data < count'
    ensures ValidStack([g] + stack, count')
  {
  }

  function ValueNode(v: Value): Node {
    match v
    case Absent => Null
    case Text(s) => Str(s)
    case List(items) => Lst(items)
  }

  function PutItem(dicts: seq<map<string, Item>>, d: nat, name: string, item: Item): (r: seq<map<string, Item>>)
    requires Forward(dicts) && d < |dicts|
    requires item.Ref? ==> d < item.dict < |dicts|
    ensures Forward(r) && |r| == |dicts|
  {
    var r := dicts[d := dicts[d][name := item]];
    assert forall i, k :: 0 <= i < |r| && k in r[i] && r[i][k].Ref? ==> i < r[i][k].dict < |r| by {
      forall i, k | 0 <= i < |r| && k in r[i] && r[i][k].Ref? ensures i < r[i][k].dict < |r| {
        if i != d || k != name {
          assert k in dicts[i] && r[i][k] == dicts[i][k];
        }
      }
    }
    r
  }

  function NewDict(dicts: seq<map<string, Item>>): (r: seq<map<string, Item>>)
    requires Forward(dicts)
    ensures Forward(r) && |r| == |dicts| + 1
  {
    dicts + [map[]]
  }

  /** The dictionary that a line of the given indentation adds to. */
  function GroupAt(s: LoadState, indentation: nat): (d: nat)
    requires Valid(s)
    ensures d < |s.dicts|
  {
    PopValid(s.stack, indentation, |s.dicts|);
    PopTo(s.stack, indentation)[0].data
  }

  /** What reading one line does to the open groups and the dictionaries. */
  function Step(s: LoadState, line: Line): (r: LoadState)
    requires Valid(s)
    ensures Valid(r)
  {
    match line
    case Blank(_) => s
    case Section(indentation, name) =>
      PopValid(s.stack, indentation, |s.dicts|);
      var stack := PopTo(s.stack, indentation);
      var newest := |s.dicts|;
      PushValid(stack, GroupState(indentation, newest), newest, newest + 1);
      LoadState([GroupState(indentation, newest)] + stack,
          PutItem(NewDict(s.dicts), GroupAt(s, indentation), name, Ref(newest)))
    case Setting(indentation, name, value) =>
      PopValid(s.stack, indentation, |s.dicts|);
      var stack := PopTo(s.stack, indentation);
      LoadState(stack, PutItem(s.dicts, GroupAt(s, indentation), name, Leaf(ValueNode(value))))
  }

  function Run(lines: seq<string>, s: LoadState): (r: Result<LoadState, ParseError>)
    requires Valid(s)
    ensures r.Ok? ==> Valid(r.value)
  {
    if lines == [] then Ok(s)
    else match LineOf(lines[0])
      case Err(e) => Err(e)
      case Ok(line) => Run(lines[1..], Step(s, line))
  }

  /** Iterating over a text file yields its lines with their terminators. */
  function FileLines(text: string): seq<string> {
    if text == "" then []
    else if text[0] == '\n' then ["\n"] + FileLines(text[1..])
    else
      var rest := FileLines(text[1..]);
      if rest == [] then [[text[0]]] else [[text[0]] + rest[0]] + rest[1..]
  }

  /** The data a configuration file holds. */
  function Loaded(text: string): Result<Node, ParseError> {
    match Run(FileLines(text), Initial())
    case Err(e) => Err(e)
    case Ok(s) => Ok(ItemTree(s.dicts, Ref(0)))
  }

  /** Finds the group a line of the given indentation belongs to. */
  method CloseGroups(open: seq<GroupState>, indentation: nat) returns (stack: seq<GroupState>)
    requires 0 < |open| && open[|open| - 1].indentation < 0
    ensures stack == PopTo(open, indentation)
  {
    stack := open;
    while stack[0].indentation >= indentation
      invariant 0 < |stack| && stack[|stack| - 1].indentation < 0
      invariant PopTo(stack, indentation) == PopTo(open, indentation)
      decreases |stack|
    {
      stack := stack[1..];
    }
  }

  method Load(text: string) returns (r: Result<Node, ParseError>)
    ensures r == Loaded(text)
  {
    var stack := Initial().stack;
    var dicts := Initial().dicts;
    var lines := FileLines(text);
    for i := 0 to |lines|
      invariant Valid(LoadState(stack, dicts))
      invariant Run(lines, Initial()) == Run(lines[i..], LoadState(stack, dicts))
    {
      ghost var before := LoadState(stack, dicts);
      assert lines[i..][1..] == lines[i + 1..];
      var line := ParseLine(lines[i]);
      if line.Err? {
        return Err(line.error);
      }
      if line.value.Blank? {
        continue;
      }
      stack := CloseGroups(stack, line.value.indentation);
      PopValid(before.stack, line.value.indentation, |dicts|);
      var top := stack[0].data;
      match line.value
      case Section(indentation, name) =>
        var newest := GroupState(indentation, |dicts|);
        dicts := NewDict(dicts);
        dicts := PutItem(dicts, top, name, Ref(newest.data));
        stack := [newest] + stack;
      case Setting(_, name, value) =>
        dicts := PutItem(dicts, top, name, Leaf(ValueNode(value)));
      assert LoadState(stack, dicts) == Step(before, line.value);
    }
    r := Ok(ItemTree(dicts, Ref(stack[|stack| - 1].data)));
  }
}
