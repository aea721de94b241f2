/** Where the lines of a configuration file go: the groups that are open at a line, for any
    indentation, and lines that say nothing. */
module ConfigNesting {
  import opened Wrappers
  import opened ConfigText
  import opened ConfigFile
  import opened ConfigGrammar
  import opened ConfigRoundTrip

  // ---------------------------------------------------------------- lines that say nothing

  /** A text is read line by line. */
  lemma {:induction false} LinesOver(x: string, y: string)
    requires x == "" || x[|x| - 1] == '\n'
    ensures FileLines(x + y) == FileLines(x) + FileLines(y)
    decreases |x|
  {
    if x == "" {
      assert x + y == y;
    } else {
      var rest := x[1..];
      assert (x + y)[0] == x[0] && (x + y)[1..] == rest + y;
      if rest != "" {
        assert rest[|rest| - 1] == x[|x| - 1];
      }
      LinesOver(rest, y);
      if x[0] != '\n' {
        LinesStart(rest);
      }
    }
  }

  lemma LinesStart(x: string)
    ensures x != "" ==> FileLines(x) != []
  {
  }

  /** A line of white space and a comment, put between the lines of a file, changes nothing. */
  lemma CommentLineChangesNothing(before: string, spaces: string, comment: string, after: string)
    requires before == "" || before[|before| - 1] == '\n'
    requires AllSpace(spaces) && '\n' !in spaces && '\n' !in comment && comment != "" && comment[0] == '#'
    ensures Loaded(before + (((spaces + comment) + "\n") + after)) == Loaded(before + after)
  {
    var line := spaces + comment;
    LinesOver(before, (line + "\n") + after);
    LinesOver(before, after);
    assert (line + "\n")[|line + "\n"| - 1] == '\n';
    FirstFileLine(line, after);
    var kept := RStripBehind(spaces, comment + "\n");
    assert spaces + (comment + "\n") == line + "\n";
    CommentIsBlank(line + "\n", spaces, kept);
    var lines := FileLines(after);
    RunConcat(FileLines(before), [line + "\n"] + lines, Initial());
    RunConcat(FileLines(before), lines, Initial());
    assert ([line + "\n"] + lines)[1..] == lines;
  }

  // ---------------------------------------------------------------- open groups

  /** The state after some lines were read. */
  function Fold(lines: seq<Line>): (s: LoadState)
    ensures Valid(s)
  {
    if lines == [] then Initial() else Step(Fold(lines[..|lines| - 1]), lines[|lines| - 1])
  }

  /** Everything since a section was indented deeper than it. */
  ghost predicate IsOpen(lines: seq<Line>, j: nat) {
    && j < |lines| && lines[j].Section?
    && forall k :: j < k < |lines| && !lines[k].Blank? ==> lines[k].indentation > lines[j].indentation
  }

  /** Sections get dictionaries in the order they come, after that of the file. */
  function DictOf(lines: seq<Line>, j: nat): nat
    requires j <= |lines|
  {
    if j == 0 then 1 else DictOf(lines, j - 1) + if lines[j - 1].Section? then 1 else 0
  }

  ghost predicate OpenGroup(lines: seq<Line>, g: GroupState) {
    exists j: nat :: IsOpen(lines, j) && g == GroupState(lines[j].indentation, DictOf(lines, j))
  }

  lemma {:induction false} DictOfPrefix(lines: seq<Line>, more: seq<Line>, j: nat)
    requires j <= |lines|
    ensures DictOf(lines + more, j) == DictOf(lines, j) >= 1
  {
    if j > 0 {
      DictOfPrefix(lines, more, j - 1);
    }
  }

  lemma OpenBefore(lines: seq<Line>, last: Line, j: nat)
    requires j < |lines|
    ensures IsOpen(lines + [last], j) <==> IsOpen(lines, j) && (last.Blank? || last.indentation > lines[j].indentation)
  {
    var all := lines + [last];
    assert all[|lines|] == last;
    assert forall k :: 0 <= k < |lines| ==> all[k] == lines[k];
  }

  lemma OpenLast(lines: seq<Line>, last: Line)
    ensures IsOpen(lines + [last], |lines|) <==> last.Section?
  {
    assert (lines + [last])[|lines|] == last;
  }

  /** What is open after one more line: what was, less what is not indented less than the line, and the line itself. */
  lemma OpenAfter(lines: seq<Line>, last: Line, g: GroupState)
    ensures OpenGroup(lines + [last], g) <==>
              || (OpenGroup(lines, g) && (last.Blank? || last.indentation > g.indentation))
              || (last.Section? && g == GroupState(last.indentation, DictOf(lines, |lines|)))
  {
    hide IsOpen, DictOf;
    var all := lines + [last];
    assert all[|lines|] == last;
    DictOfPrefix(lines, [last], |lines|);
    OpenLast(lines, last);
    forall j: nat | j < |lines|
      ensures all[j] == lines[j] && DictOf(all, j) == DictOf(lines, j)
      ensures IsOpen(all, j) <==> IsOpen(lines, j) && (last.Blank? || last.indentation > lines[j].indentation)
    {
      OpenBefore(lines, last, j);
      DictOfPrefix(lines, [last], j);
    }
    OpenBounds(lines);
    OpenBounds(all);
  }

  lemma OpenBounds(lines: seq<Line>)
    ensures forall j: nat :: IsOpen(lines, j) ==> j < |lines|
  {
  }

  lemma {:induction false} PopToHas(stack: seq<GroupState>, indentation: nat, count: nat, g: GroupState)
    requires ValidStack(stack, count)
    ensures g in PopTo(stack, indentation) <==> g in stack && g.indentation < indentation
    decreases |stack|
  {
    if stack[0].indentation >= indentation {
      TailValid(stack, count);
      assert stack == [stack[0]] + stack[1..];
      assert PopTo(stack, indentation) == PopTo(stack[1..], indentation);
      hide ValidStack, PopTo;
      PopToHas(stack[1..], indentation, count, g);
    } else {
      assert PopTo(stack, indentation) == stack;
      hide ValidStack, PopTo;
      FirstIsDeepest(stack, count, g);
    }
  }

  lemma FirstIsDeepest(stack: seq<GroupState>, count: nat, g: GroupState)
    requires ValidStack(stack, count)
    ensures g in stack ==> g.indentation <= stack[0].indentation
  {
    if g in stack {
      var i :| 0 <= i < |stack| && stack[i] == g;
      Descends(stack, count, i);
    }
  }

  lemma {:induction false} Descends(stack: seq<GroupState>, count: nat, i: nat)
    requires ValidStack(stack, count) && i < |stack|
    ensures stack[i].indentation <= stack[0].indentation
    decreases i
  {
    if i > 0 {
      Descends(stack, count, i - 1);
    }
  }

  /** The stack holds the group of the file and exactly the sections that are open. */
  lemma {:induction false} StackIsOpenSections(lines: seq<Line>, g: GroupState)
    ensures |Fold(lines).dicts| == DictOf(lines, |lines|)
    ensures g in Fold(lines).stack <==> g == GroupState(-1, 0) || OpenGroup(lines, g)
    decreases |lines|
  {
    hide IsOpen, OpenGroup, DictOf, Forward;
    if lines == [] {
      NoneOpen(g);
    } else {
      var most, last := lines[..|lines| - 1], lines[|lines| - 1];
      assert lines == most + [last];
      StackIsOpenSections(most, g);
      OpenAfter(most, last, g);
      DictOfNext(lines);
      StepStack(Fold(most), last, g);
    }
  }

  lemma NoneOpen(g: GroupState)
    ensures !OpenGroup([], g) && DictOf([], 0) == 1
  {
  }

  lemma DictOfNext(lines: seq<Line>)
    requires lines != []
    ensures var most, last := lines[..|lines| - 1], lines[|lines| - 1];
            DictOf(lines, |lines|) == DictOf(most, |most|) + if last.Section? then 1 else 0
  {
    var most, last := lines[..|lines| - 1], lines[|lines| - 1];
    assert lines == most + [last];
    DictOfPrefix(most, [last], |most|);
  }

  lemma StepShape(s: LoadState, line: Line)
    requires 0 < |s.stack| && s.stack[|s.stack| - 1].indentation < 0
    requires Valid(s)
    ensures line.Blank? ==> Step(s, line) == s
    ensures line.Setting? ==> Step(s, line).stack == PopTo(s.stack, line.indentation)
    ensures line.Section? ==>
              Step(s, line).stack == [GroupState(line.indentation, |s.dicts|)] + PopTo(s.stack, line.indentation)
    ensures |Step(s, line).dicts| == |s.dicts| + if line.Section? then 1 else 0
  {
  }

  lemma StackOf(s: LoadState)
    requires Valid(s)
    ensures ValidStack(s.stack, |s.dicts|) && 0 < |s.stack| && s.stack[|s.stack| - 1].indentation < 0
  {
  }

  lemma StepStack(s: LoadState, line: Line, g: GroupState)
    requires Valid(s)
    ensures g in Step(s, line).stack <==>
              || (g in s.stack && (line.Blank? || g.indentation < line.indentation))
              || (line.Section? && g == GroupState(line.indentation, |s.dicts|))
    ensures |Step(s, line).dicts| == |s.dicts| + if line.Section? then 1 else 0
  {
    hide *;
    assert ValidStack(s.stack, |s.dicts|) && 0 < |s.stack| && s.stack[|s.stack| - 1].indentation < 0 by {
      StackOf(s);
    }
    StepShape(s, line);
    if !line.Blank? {
      PopToHas(s.stack, line.indentation, |s.dicts|, g);
    }
  }

  /** A line goes to the open section that is indented most of those indented less than the line, or to the file. */
  lemma LineGoesTo(lines: seq<Line>, indentation: nat) returns (home: GroupState)
    ensures home.data == GroupAt(Fold(lines), indentation) && home.indentation < indentation
    ensures home == GroupState(-1, 0) || OpenGroup(lines, home)
    ensures forall g :: OpenGroup(lines, g) && g.indentation < indentation ==> g.indentation <= home.indentation
  {
    hide Fold, OpenGroup, Forward;
    var s := Fold(lines);
    PopValid(s.stack, indentation, |s.dicts|);
    var stack := PopTo(s.stack, indentation);
    home := stack[0];
    PopToHas(s.stack, indentation, |s.dicts|, home);
    StackIsOpenSections(lines, home);
    forall g | OpenGroup(lines, g) && g.indentation < indentation ensures g.indentation <= home.indentation {
      StackIsOpenSections(lines, g);
      PopToHas(s.stack, indentation, |s.dicts|, g);
      var i :| 0 <= i < |stack| && stack[i] == g;
      Descends(stack, |s.dicts|, i);
    }
  }

  function Meaning(value: Value): Node {
    if value.Absent? then Null else if value.Text? then Str(value.s) else Lst(value.items)
  }

  /** A setting puts its value, and a section a new empty dictionary, under its name where it goes, and nothing else
      changes. */
  lemma LinePuts(s: LoadState, line: Line)
    requires Valid(s) && !line.Blank?
    ensures var dicts, d := Step(s, line).dicts, GroupAt(s, line.indentation);
            && line.name in dicts[d]
            && (line.Setting? ==> |dicts| == |s.dicts| && dicts[d][line.name] == Leaf(Meaning(line.value)))
            && (line.Section? ==>
                  |dicts| == |s.dicts| + 1 && dicts[d][line.name] == Ref(|s.dicts|) && dicts[|s.dicts|] == map[])
            && (forall i :: 0 <= i < |s.dicts| && i != d ==> dicts[i] == s.dicts[i])
            && forall k :: k != line.name ==>
                 (k in dicts[d] <==> k in s.dicts[d]) && (k in dicts[d] ==> dicts[d][k] == s.dicts[d][k])
  {
    hide *;
    StepPuts(s, line);
    if line.Setting? {
      assert s.dicts + [] == s.dicts;
      PutOne(s.dicts, [], GroupAt(s, line.indentation), line.name, Leaf(Meaning(line.value)));
    } else {
      PutOne(s.dicts, [map[]], GroupAt(s, line.indentation), line.name, Ref(|s.dicts|));
    }
  }

  lemma PutOne(dicts: seq<map<string, Item>>, more: seq<map<string, Item>>, d: nat, name: string, item: Item)
    requires d < |dicts|
    ensures var r := (dicts + more)[d := dicts[d][name := item]];
            && |r| == |dicts| + |more| && name in r[d] && r[d][name] == item
            && (more != [] ==> r[|dicts|] == more[0])
            && (forall i :: 0 <= i < |dicts| && i != d ==> r[i] == dicts[i])
            && forall k :: k != name ==> (k in r[d] <==> k in dicts[d]) && (k in r[d] ==> r[d][k] == dicts[d][k])
  {
  }

  lemma StepPuts(s: LoadState, line: Line)
    requires Valid(s) && !line.Blank?
    ensures var dicts, d := Step(s, line).dicts, GroupAt(s, line.indentation);
            && d < |s.dicts|
            && (line.Setting? ==> dicts == s.dicts[d := s.dicts[d][line.name := Leaf(Meaning(line.value))]])
            && (line.Section? ==> dicts == (s.dicts + [map[]])[d := s.dicts[d][line.name := Ref(|s.dicts|)]])
  {
    hide Forward, PopTo;
  }

  /** Loading a file is putting its lines in turn. */
  lemma {:induction false} RunIsFold(raw: seq<string>, lines: seq<Line>)
    requires |raw| == |lines| && forall i :: 0 <= i < |raw| ==> LineOf(raw[i]) == Ok(lines[i])
    ensures Run(raw, Initial()) == Ok(Fold(lines))
    decreases |raw|
  {
    hide LineOf, Step;
    if raw != [] {
      var last := |raw| - 1;
      RunIsFold(raw[..last], lines[..last]);
      assert raw == raw[..last] + [raw[last]];
      RunConcat(raw[..last], [raw[last]], Initial());
      assert [raw[last]][1..] == [];
    }
  }
}
