/** The store of all settings: a tree of nested dictionaries that objects are merged into,
    moved in, and taken out of. */
module SettingsStore {
  import opened Wrappers
  import opened ConfigFile

  /** The state of an object as it is handed to the store: a marker that a setting has its
      default value, a plain value, a group of settings, or a collection whose members are
      all listed. */
  datatype State = Default | Value(n: Node) | Group(m: map<string, State>) | Items(m: map<string, State>)

  type Tree = map<string, Node>

  datatype StoreError = NotStarted | EmptyKey | NotFound | NotADictionary

  /** A step of a path; a persistent one keeps its dictionary even when that gets empty. */
  datatype Key = Key(name: string, persistent: bool)

  predicate WellFormed(s: State) {
    match s
    case Default => true
    case Value(n) => !n.Dict?
    case Group(m) => forall k :: k in m ==> WellFormed(m[k])
    case Items(m) => forall k :: k in m ==> WellFormed(m[k])
  }

  // ---------------------------------------------------------------- merging

  function SubTree(t: Tree, k: string): Tree {
    if k in t && t[k].Dict? then t[k].m else map[]
  }

  function Pruned(t: Tree): Option<Node> {
    if t == map[] then None else Some(Dict(t))
  }

  /** The entry `k` after merging `s` into it. */
  function MergedEntry(prior: Tree, k: string, s: State): Option<Node>
    decreases s, 1
  {
    match s
    case Default => None
    case Value(n) => Some(n)
    case Group(m) => Pruned(Merged(SubTree(prior, k), s))
    case Items(m) => Pruned(Merged(SubTree(prior, k) - (SubTree(prior, k).Keys - m.Keys), s))
  }

  /** A dictionary after merging the entries of `s` into it. */
  function Merged(prior: Tree, s: State): Tree
    requires s.Group? || s.Items?
    decreases s, 0
  {
    map k | k in prior.Keys + s.m.Keys && (k in s.m ==> MergedEntry(prior, k, s.m[k]).Some?) ::
      if k in s.m then MergedEntry(prior, k, s.m[k]).value else prior[k]
  }

  function PutEntry(t: Tree, k: string, entry: Option<Node>): Tree {
    if entry.Some? then t[k := entry.value] else t - {k}
  }

  /** `r` is `prior` with only the entries `seen` merged. */
  ghost predicate MergedSoFar(prior: Tree, s: State, seen: set<string>, r: Tree)
    requires (s.Group? || s.Items?) && seen <= s.m.Keys
  {
    && (forall x :: x in r <==> if x in seen then MergedEntry(prior, x, s.m[x]).Some? else x in prior)
    && (forall x :: x in r ==> r[x] == if x in seen then MergedEntry(prior, x, s.m[x]).value else prior[x])
  }

  lemma MergedOneMore(prior: Tree, s: State, seen: set<string>, k: string, r: Tree)
    requires (s.Group? || s.Items?) && seen <= s.m.Keys && k in s.m.Keys - seen && MergedSoFar(prior, s, seen, r)
    ensures MergedSoFar(prior, s, seen + {k}, PutEntry(r, k, MergedEntry(prior, k, s.m[k])))
    ensures SubTree(r, k) == SubTree(prior, k)
  {
    hide MergedEntry;
  }

  lemma MergedAll(prior: Tree, s: State, r: Tree)
    requires (s.Group? || s.Items?) && MergedSoFar(prior, s, s.m.Keys, r)
    ensures r == Merged(prior, s)
  {
    hide MergedEntry;
  }

  lemma EntryDependsOnSubTree(a: Tree, b: Tree, k: string, s: State)
    requires SubTree(a, k) == SubTree(b, k)
    ensures MergedEntry(a, k, s) == MergedEntry(b, k, s)
  {
  }

  method UpdateEntry(data: Tree, key: string, value: State) returns (r: Tree)
    ensures r == PutEntry(data, key, MergedEntry(data, key, value))
    decreases value, 1
  {
    r := data;
    match value {
      case Default =>
        r := r - {key};
      case Items(m) =>
        if key !in r || !r[key].Dict? {
          r := r[key := Dict(map[])];
        }
        var subtree := r[key].m;
        assert subtree == SubTree(data, key);
        subtree := subtree - (subtree.Keys - m.Keys);
        subtree := UpdateDict(subtree, value);
        r := if subtree == map[] then r - {key} else r[key := Dict(subtree)];
      case Group(m) =>
        if key in r && !r[key].Dict? {
          r := r - {key};
        }
        var subtree := if key in r then r[key].m else map[];
        assert subtree == SubTree(data, key);
        subtree := UpdateDict(subtree, value);
        r := if subtree == map[] then r - {key} else r[key := Dict(subtree)];
      case Value(n) =>
        r := r[key := n];
    }
  }

  /** Merges new data into a dictionary entry by entry, in whatever order the entries come. */
  method UpdateDict(prior: Tree, s: State) returns (r: Tree)
    requires s.Group? || s.Items?
    ensures r == Merged(prior, s)
    decreases s, 0
  {
    hide Merged, MergedSoFar, MergedEntry, SubTree;
    r := prior;
    var rest := s.m.Keys;
    ghost var seen: set<string> := {};
    assert MergedSoFar(prior, s, seen, r) by { NothingMerged(prior, s); }
    while rest != {}
      invariant seen + rest == s.m.Keys && seen !! rest
      invariant MergedSoFar(prior, s, seen, r)
      decreases rest
    {
      var key :| key in rest;
      MergedOneMore(prior, s, seen, key, r);
      EntryDependsOnSubTree(r, prior, key, s.m[key]);
      r := UpdateEntry(r, key, s.m[key]);
      rest := rest - {key};
      seen := seen + {key};
    }
    assert seen == s.m.Keys;
    MergedAll(prior, s, r);
  }

  lemma NothingMerged(prior: Tree, s: State)
    requires s.Group? || s.Items?
    ensures MergedSoFar(prior, s, {}, prior)
  {
  }

  // ---------------------------------------------------------------- settings by path

  /** The value of the setting at a path, if there is one. */
  function Setting(t: Tree, path: seq<string>): Option<Node>
    requires path != []
    decreases |path|
  {
    if path[0] !in t then None
    else if |path| == 1 then if t[path[0]].Dict? then None else Some(t[path[0]])
    else if t[path[0]].Dict? then Setting(t[path[0]].m, path[1..]) else None
  }

  /** What merging new data does to one setting: a mentioned value replaces it, a default
      marker or a value or group in its place removes it, a collection that does not list it
      removes it, and otherwise it stays. */
  function Verdict(s: State, path: seq<string>, was: Option<Node>): Option<Node>
    requires path != [] && (s.Group? || s.Items?)
    decreases |path|
  {
    if path[0] !in s.m then was
    else match s.m[path[0]]
      case Default => None
      case Value(n) => if |path| == 1 then Some(n) else None
      case Group(m) => if |path| == 1 then None else Verdict(s.m[path[0]], path[1..], was)
      case Items(m) => if |path| == 1 || path[1] !in m then None else Verdict(s.m[path[0]], path[1..], was)
  }

  /** A merge decides about every setting on its own, wherever it is in the tree. */
  lemma {:induction false} MergeBySetting(prior: Tree, s: State, path: seq<string>)
    requires (s.Group? || s.Items?) && WellFormed(s) && path != []
    ensures Setting(Merged(prior, s), path) == Verdict(s, path, Setting(prior, path))
    decreases |path|
  {
    var k := path[0];
    if k in s.m && |path| > 1 && (s.m[k].Group? || s.m[k].Items?) {
      var sub := SubTree(prior, k);
      var kept := if s.m[k].Items? then sub - (sub.Keys - s.m[k].m.Keys) else sub;
      MergeBySetting(kept, s.m[k], path[1..]);
    }
  }

  /** No dictionary below `at` is empty, except at the paths to keep. */
  ghost predicate Compact(t: Tree, keep: iset<seq<string>>, at: seq<string>) {
    forall k :: k in t ==> CompactNode(t[k], keep, at + [k])
  }

  ghost predicate CompactNode(n: Node, keep: iset<seq<string>>, at: seq<string>) {
    n.Dict? ==> (n.m != map[] || at in keep) && forall k :: k in n.m ==> CompactNode(n.m[k], keep, at + [k])
  }

  lemma {:induction false} MergeKeepsCompact(prior: Tree, s: State, keep: iset<seq<string>>, at: seq<string>)
    requires (s.Group? || s.Items?) && WellFormed(s) && Compact(prior, keep, at)
    ensures Compact(Merged(prior, s), keep, at)
    decreases s
  {
    forall k | k in Merged(prior, s) ensures CompactNode(Merged(prior, s)[k], keep, at + [k]) {
      if k in s.m && (s.m[k].Group? || s.m[k].Items?) {
        assert WellFormed(s.m[k]);
        var sub := SubTree(prior, k);
        assert k in prior ==> CompactNode(prior[k], keep, at + [k]);
        MergeKeepsCompact(if s.m[k].Items? then sub - (sub.Keys - s.m[k].m.Keys) else sub, s.m[k], keep, at + [k]);
      }
    }
  }

  /** Merging the same data again changes nothing. */
  lemma {:induction false} MergeTwice(prior: Tree, s: State)
    requires (s.Group? || s.Items?) && WellFormed(s)
    ensures Merged(Merged(prior, s), s) == Merged(prior, s)
    decreases s
  {
    var once := Merged(prior, s);
    forall k | k in s.m ensures MergedEntry(once, k, s.m[k]) == MergedEntry(prior, k, s.m[k]) {
      EntryTwice(prior, s, k);
    }
  }

  lemma {:induction false} EntryTwice(prior: Tree, s: State, k: string)
    requires (s.Group? || s.Items?) && WellFormed(s) && k in s.m
    ensures MergedEntry(Merged(prior, s), k, s.m[k]) == MergedEntry(prior, k, s.m[k])
    decreases s, 0
  {
    if s.m[k].Group? || s.m[k].Items? {
      assert WellFormed(s.m[k]);
      var sub := SubTree(prior, k);
      var kept := if s.m[k].Items? then sub - (sub.Keys - s.m[k].m.Keys) else sub;
      var merged := Merged(kept, s.m[k]);
      assert SubTree(Merged(prior, s), k) == merged;
      MergeTwice(kept, s.m[k]);
      if s.m[k].Items? {
        assert merged.Keys <= s.m[k].m.Keys;
        assert merged - (merged.Keys - s.m[k].m.Keys) == merged;
      }
    }
  }

  // ---------------------------------------------------------------- paths in the tree

  function Names(key: seq<Key>): (names: seq<string>)
    ensures |names| == |key|
  {
    seq(|key|, i requires 0 <= i < |key| => key[i].name)
  }

  /** A value that counts as empty when it stands where a dictionary is expected. */
  predicate IsEmptyNode(n: Node) {
    match n
    case Null => true
    case Str(s) => s == ""
    case Lst(items) => items == []
    case Dict(m) => m == map[]
    case Other => false
  }

  function GetAt(t: Tree, key: seq<Key>): Result<Node, StoreError>
    requires key != []
    decreases |key|
  {
    if key[0].name !in t then Err(NotFound)
    else if |key| == 1 then Ok(t[key[0].name])
    else if t[key[0].name].Dict? then GetAt(t[key[0].name].m, key[1..]) else Err(NotADictionary)
  }

  /** Stores what became of the dictionary at the first step of a path, unless it got empty
      and need not persist. */
  function Restored(t: Tree, k: Key, n: Node): Tree {
    if !k.persistent && IsEmptyNode(n) then t - {k.name} else t[k.name := n]
  }

  function UpdateAt(t: Tree, key: seq<Key>, s: State): Result<Tree, StoreError>
    requires key != [] && (s.Group? || s.Items?)
    decreases |key|
  {
    var n := if key[0].name in t then t[key[0].name] else Dict(map[]);
    if |key| > 1 then
      if !n.Dict? then Err(NotADictionary)
      else match UpdateAt(n.m, key[1..], s)
        case Err(e) => Err(e)
        case Ok(sub) => Ok(Restored(t, key[0], Dict(sub)))
    else if n.Dict? then Ok(Restored(t, key[0], Dict(Merged(n.m, s))))
    else if s.m != map[] then Err(NotADictionary)
    else Ok(Restored(t, key[0], n))
  }

  /** The data at a path, and the tree without it. */
  function PopAt(t: Tree, key: seq<Key>): Result<(Node, Tree), StoreError>
    requires key != []
    decreases |key|
  {
    var k := key[0].name;
    if k !in t then Err(NotFound)
    else if |key| == 1 then Ok((t[k], t - {k}))
    else if !t[k].Dict? then Err(NotADictionary)
    else match PopAt(t[k].m, key[1..])
      case Err(e) => Err(e)
      case Ok(p) => Ok((p.0, if !key[0].persistent && p.1 == map[] then t - {k} else t[k := Dict(p.1)]))
  }

  function InsertAt(t: Tree, key: seq<Key>, data: Tree): Result<Tree, StoreError>
    requires key != []
    decreases |key|
  {
    var n := if key[0].name in t then t[key[0].name] else Dict(map[]);
    if !n.Dict? then Err(NotADictionary)
    else if |key| == 1 then Ok(t[key[0].name := Dict(n.m + data)])
    else match InsertAt(n.m, key[1..], data)
      case Err(e) => Err(e)
      case Ok(sub) => Ok(t[key[0].name := Dict(sub)])
  }

  // ---------------------------------------------------------------- what updates leave alone

  /** Updating the object at a path decides about the settings of that object. */
  lemma {:induction false} UpdateBySetting(t: Tree, key: seq<Key>, s: State, path: seq<string>)
    requires key != [] && (s.Group? || s.Items?) && WellFormed(s) && path != []
    requires UpdateAt(t, key, s).Ok?
    ensures Setting(UpdateAt(t, key, s).value, Names(key) + path) == Verdict(s, path, Setting(t, Names(key) + path))
    decreases |key|
  {
    var k := key[0].name;
    var full := Names(key) + path;
    var n := if k in t then t[k] else Dict(map[]);
    assert full[0] == k;
    if |key| > 1 {
      assert full[1..] == Names(key[1..]) + path;
      UpdateBySetting(n.m, key[1..], s, path);
    } else {
      assert full[1..] == path;
      if n.Dict? {
        MergeBySetting(n.m, s, path);
      }
    }
  }

  /** Updating the object at a path leaves every setting outside that object alone. */
  lemma {:induction false} UpdateElsewhere(t: Tree, key: seq<Key>, s: State, path: seq<string>)
    requires key != [] && (s.Group? || s.Items?) && path != []
    requires UpdateAt(t, key, s).Ok? && !(Names(key) <= path)
    ensures Setting(UpdateAt(t, key, s).value, path) == Setting(t, path)
    decreases |key|
  {
    var k := key[0].name;
    var n := if k in t then t[k] else Dict(map[]);
    assert Names(key) == [k] + Names(key[1..]) && path == [path[0]] + path[1..];
    if path[0] == k && |key| > 1 && |path| > 1 {
      UpdateElsewhere(n.m, key[1..], s, path[1..]);
    }
  }

  /** Taking an object out leaves every setting outside that object alone. */
  lemma {:induction false} PopElsewhere(t: Tree, key: seq<Key>, path: seq<string>)
    requires key != [] && path != [] && PopAt(t, key).Ok? && !(Names(key) <= path)
    ensures Setting(PopAt(t, key).value.1, path) == Setting(t, path)
    decreases |key|
  {
    var k := key[0].name;
    assert Names(key) == [k] + Names(key[1..]) && path == [path[0]] + path[1..];
    if path[0] == k && |key| > 1 && |path| > 1 {
      PopElsewhere(t[k].m, key[1..], path[1..]);
    }
  }

  /** And every object that neither is in that object nor contains it is found as before. */
  lemma {:induction false} PopOthersFound(t: Tree, key: seq<Key>, other: seq<Key>)
    requires key != [] && other != [] && PopAt(t, key).Ok?
    requires !(Names(key) <= Names(other)) && !(Names(other) <= Names(key))
    ensures GetAt(PopAt(t, key).value.1, other) == GetAt(t, other)
    decreases |key|
  {
    NamesStart(key);
    NamesStart(other);
    if other[0].name == key[0].name {
      PopOthersFound(t[key[0].name].m, key[1..], other[1..]);
    }
  }

  lemma NamesStart(key: seq<Key>)
    requires key != []
    ensures Names(key) == [key[0].name] + Names(key[1..])
  {
  }

  /** Putting an object in leaves every setting outside its place alone. */
  lemma {:induction false} InsertElsewhere(t: Tree, key: seq<Key>, data: Tree, path: seq<string>)
    requires key != [] && path != [] && InsertAt(t, key, data).Ok? && !(Names(key) <= path)
    ensures Setting(InsertAt(t, key, data).value, path) == Setting(t, path)
    decreases |key|
  {
    var k := key[0].name;
    var n := if k in t then t[k] else Dict(map[]);
    assert Names(key) == [k] + Names(key[1..]) && path == [path[0]] + path[1..];
    if path[0] == k && |key| > 1 && |path| > 1 {
      InsertElsewhere(n.m, key[1..], data, path[1..]);
    }
  }

  lemma {:induction false} InsertOthersFound(t: Tree, key: seq<Key>, data: Tree, other: seq<Key>)
    requires key != [] && other != [] && InsertAt(t, key, data).Ok?
    requires !(Names(key) <= Names(other)) && !(Names(other) <= Names(key))
    ensures GetAt(InsertAt(t, key, data).value, other) == GetAt(t, other)
    decreases |key|
  {
    NamesStart(key);
    NamesStart(other);
    if other[0].name == key[0].name {
      var n := if key[0].name in t then t[key[0].name] else Dict(map[]);
      InsertOthersFound(n.m, key[1..], data, other[1..]);
    }
  }

  /** In its place every setting is that of the object, or as it was where the object has nothing of the name. */
  lemma {:induction false} InsertBySetting(t: Tree, key: seq<Key>, data: Tree, path: seq<string>)
    requires key != [] && path != [] && InsertAt(t, key, data).Ok?
    ensures Setting(InsertAt(t, key, data).value, Names(key) + path) ==
              if path[0] in data then Setting(data, path) else Setting(t, Names(key) + path)
    decreases |key|
  {
    var k := key[0].name;
    var full := Names(key) + path;
    var n := if k in t then t[k] else Dict(map[]);
    assert full[0] == k;
    if |key| > 1 {
      assert full[1..] == Names(key[1..]) + path;
      InsertBySetting(n.m, key[1..], data, path);
    } else {
      assert full[1..] == path;
    }
  }

  /** A move takes the settings of one object to its new place and leaves all others alone. */
  lemma RenameMovesOne(t: Tree, oldKey: seq<Key>, newKey: seq<Key>, path: seq<string>)
    requires oldKey != [] && newKey != [] && path != []
    requires PopAt(t, oldKey).Ok? && PopAt(t, oldKey).value.0.Dict?
    requires InsertAt(PopAt(t, oldKey).value.1, newKey, PopAt(t, oldKey).value.0.m).Ok?
    ensures var p := PopAt(t, oldKey).value;
            var after := InsertAt(p.1, newKey, p.0.m).value;
            && (!(Names(oldKey) <= path) && !(Names(newKey) <= path) ==> Setting(after, path) == Setting(t, path))
            && (path[0] in p.0.m ==> Setting(after, Names(newKey) + path) == Setting(p.0.m, path))
  {
    var p := PopAt(t, oldKey).value;
    if !(Names(oldKey) <= path) && !(Names(newKey) <= path) {
      PopElsewhere(t, oldKey, path);
      InsertElsewhere(p.1, newKey, p.0.m, path);
    }
    InsertBySetting(p.1, newKey, p.0.m, path);
  }

  /** A value is found at a path if and only if that is where the setting is. */
  lemma {:induction false} GetIsSetting(t: Tree, key: seq<Key>, n: Node)
    requires key != [] && !n.Dict?
    ensures GetAt(t, key) == Ok(n) <==> Setting(t, Names(key)) == Some(n)
    decreases |key|
  {
    NamesStart(key);
    if |key| > 1 && key[0].name in t && t[key[0].name].Dict? {
      GetIsSetting(t[key[0].name].m, key[1..], n);
    }
  }

  /** An object found has the settings there are below its place. */
  lemma {:induction false} GetHasSettings(t: Tree, key: seq<Key>, path: seq<string>)
    requires key != [] && path != [] && GetAt(t, key).Ok? && GetAt(t, key).value.Dict?
    ensures Setting(GetAt(t, key).value.m, path) == Setting(t, Names(key) + path)
    decreases |key|
  {
    NamesStart(key);
    var whole := Names(key) + path;
    assert whole[0] == key[0].name && whole[1..] == Names(key[1..]) + path;
    if |key| > 1 {
      GetHasSettings(t[key[0].name].m, key[1..], path);
    } else {
      assert whole[1..] == path;
    }
  }

  /** Popping fails exactly when nothing is found, with the same error. */
  lemma {:induction false} PopFailsAsGet(t: Tree, key: seq<Key>)
    requires key != []
    ensures PopAt(t, key).Err? <==> GetAt(t, key).Err?
    ensures PopAt(t, key).Err? ==> PopAt(t, key).error == GetAt(t, key).error
    decreases |key|
  {
    if |key| > 1 && key[0].name in t && t[key[0].name].Dict? {
      PopFailsAsGet(t[key[0].name].m, key[1..]);
    }
  }

  /** Some proper part of the path, or all of it, leads to a value that is not a dictionary. */
  ghost predicate RunsIntoValue(t: Tree, names: seq<string>, whole: bool) {
    exists i :: 0 < i <= |names| && (i == |names| ==> whole) && Setting(t, names[..i]).Some?
  }

  lemma RunsIntoNext(t: Tree, names: seq<string>, whole: bool)
    requires |names| > 1
    ensures RunsIntoValue(t, names, whole) <==>
              names[0] in t && (!t[names[0]].Dict? || RunsIntoValue(t[names[0]].m, names[1..], whole))
  {
    forall i | 1 < i <= |names|
      ensures Setting(t, names[..i]).Some? <==>
                names[0] in t && t[names[0]].Dict? && Setting(t[names[0]].m, names[1..][..i - 1]).Some?
    {
      assert names[..i][1..] == names[1..][..i - 1];
    }
    assert Setting(t, names[..1]).Some? <==> names[0] in t && !t[names[0]].Dict?;
    if names[0] in t && t[names[0]].Dict? && RunsIntoValue(t[names[0]].m, names[1..], whole) {
      var i :| 0 < i <= |names| - 1 && (i == |names| - 1 ==> whole) && Setting(t[names[0]].m, names[1..][..i]).Some?;
      assert Setting(t, names[..i + 1]).Some?;
    }
  }

  /** Updating and inserting fail exactly when the path runs into a value; an update with nothing to say may end at
      one. */
  lemma {:induction false} StoringFails(t: Tree, key: seq<Key>, s: State, data: Tree)
    requires key != [] && (s.Group? || s.Items?)
    ensures UpdateAt(t, key, s).Err? <==> RunsIntoValue(t, Names(key), s.m != map[])
    ensures InsertAt(t, key, data).Err? <==> RunsIntoValue(t, Names(key), true)
    ensures UpdateAt(t, key, s).Err? ==> UpdateAt(t, key, s).error == NotADictionary
    ensures InsertAt(t, key, data).Err? ==> InsertAt(t, key, data).error == NotADictionary
    decreases |key|
  {
    NamesStart(key);
    if |key| > 1 {
      assert Names(key)[1..] == Names(key[1..]);
      RunsIntoNext(t, Names(key), true);
      RunsIntoNext(t, Names(key), s.m != map[]);
      var n := if key[0].name in t then t[key[0].name] else Dict(map[]);
      if n.Dict? {
        StoringFails(n.m, key[1..], s, data);
        NothingToRunInto(Names(key[1..]), true);
        NothingToRunInto(Names(key[1..]), s.m != map[]);
      }
    } else {
      assert Names(key)[..1] == Names(key);
    }
  }

  lemma NothingToRunInto(names: seq<string>, whole: bool)
    ensures !RunsIntoValue(map[], names, whole)
  {
  }

  // ---------------------------------------------------------------- empty dictionaries

  /** The persistent steps of a path are paths to keep. */
  ghost predicate KeptBy(keep: iset<seq<string>>, key: seq<Key>, at: seq<string>) {
    forall i :: 0 <= i < |key| && key[i].persistent ==> at + Names(key[..i + 1]) in keep
  }

  lemma KeptByRest(keep: iset<seq<string>>, key: seq<Key>, at: seq<string>)
    requires key != [] && KeptBy(keep, key, at)
    ensures KeptBy(keep, key[1..], at + [key[0].name])
    ensures key[0].persistent ==> at + [key[0].name] in keep
  {
    forall i | 0 <= i < |key[1..]| && key[1..][i].persistent
      ensures at + [key[0].name] + Names(key[1..][..i + 1]) in keep
    {
      assert key[..i + 2] == [key[0]] + key[1..][..i + 1];
      assert at + [key[0].name] + Names(key[1..][..i + 1]) == at + Names(key[..i + 2]);
    }
    if key[0].persistent {
      assert at + Names(key[..1]) == at + [key[0].name];
    }
  }

  /** Updating an object leaves no empty dictionary behind, except at persistent steps. */
  lemma {:induction false} UpdateKeepsCompact(t: Tree, key: seq<Key>, s: State, keep: iset<seq<string>>,
      at: seq<string>)
    requires key != [] && (s.Group? || s.Items?) && WellFormed(s) && UpdateAt(t, key, s).Ok?
    requires Compact(t, keep, at) && KeptBy(keep, key, at)
    ensures Compact(UpdateAt(t, key, s).value, keep, at)
    decreases |key|
  {
    var k := key[0].name;
    var n := if k in t then t[k] else Dict(map[]);
    KeptByRest(keep, key, at);
    assert k in t ==> CompactNode(t[k], keep, at + [k]);
    if n.Dict? {
      assert Compact(n.m, keep, at + [k]);
      if |key| > 1 {
        UpdateKeepsCompact(n.m, key[1..], s, keep, at + [k]);
      } else {
        MergeKeepsCompact(n.m, s, keep, at + [k]);
      }
    }
  }

  /** So does taking an object out, whose data is then compact on its own. */
  lemma {:induction false} PopKeepsCompact(t: Tree, key: seq<Key>, keep: iset<seq<string>>, at: seq<string>)
    requires key != [] && PopAt(t, key).Ok?
    requires Compact(t, keep, at) && KeptBy(keep, key, at)
    ensures Compact(PopAt(t, key).value.1, keep, at)
    ensures CompactNode(PopAt(t, key).value.0, keep, at + Names(key))
    decreases |key|
  {
    var k := key[0].name;
    KeptByRest(keep, key, at);
    assert CompactNode(t[k], keep, at + [k]);
    assert at + Names(key) == at + [k] + Names(key[1..]);
    if |key| > 1 {
      PopKeepsCompact(t[k].m, key[1..], keep, at + [k]);
    } else {
      assert at + Names(key) == at + [k];
    }
  }

  /** And so does putting an object that is not empty, or persists, in another place. */
  lemma {:induction false} InsertKeepsCompact(t: Tree, key: seq<Key>, data: Tree, keep: iset<seq<string>>,
      at: seq<string>)
    requires key != [] && InsertAt(t, key, data).Ok?
    requires Compact(t, keep, at) && Compact(data, keep, at + Names(key))
    requires data != map[] || at + Names(key) in keep
    ensures Compact(InsertAt(t, key, data).value, keep, at)
    ensures InsertAt(t, key, data).value != map[]
    decreases |key|
  {
    var k := key[0].name;
    var n := if k in t then t[k] else Dict(map[]);
    assert k in t ==> CompactNode(t[k], keep, at + [k]);
    assert Compact(n.m, keep, at + [k]);
    assert at + Names(key) == at + [k] + Names(key[1..]);
    if |key| > 1 {
      InsertKeepsCompact(n.m, key[1..], data, keep, at + [k]);
    } else {
      assert at + Names(key) == at + [k];
    }
  }

  // ---------------------------------------------------------------- moving objects

  /** What was stored by an insertion in a place that was free is found there, and popping it
      gives it back. */
  lemma {:induction false} InsertedIsFound(t: Tree, key: seq<Key>, data: Tree)
    requires key != [] && InsertAt(t, key, data).Ok? && GetAt(t, key) == Err(NotFound)
    ensures GetAt(InsertAt(t, key, data).value, key) == Ok(Dict(data))
    decreases |key|
  {
    var k := key[0].name;
    if k !in t {
      assert map[] + data == data;
    }
    if |key| > 1 {
      var n := if k in t then t[k] else Dict(map[]);
      InsertedIsFound(n.m, key[1..], data);
    }
  }

  /** Popping an object gives the data that was found at its path, which is then gone. */
  lemma {:induction false} PoppedIsGone(t: Tree, key: seq<Key>)
    requires key != [] && PopAt(t, key).Ok?
    ensures GetAt(t, key) == Ok(PopAt(t, key).value.0)
    ensures GetAt(PopAt(t, key).value.1, key) == Err(NotFound)
    decreases |key|
  {
    if |key| > 1 {
      PoppedIsGone(t[key[0].name].m, key[1..]);
    }
  }

  /** What is found in a compact tree is compact in its place. */
  lemma {:induction false} CompactAt(t: Tree, key: seq<Key>, keep: iset<seq<string>>, at: seq<string>)
    requires key != [] && Compact(t, keep, at) && GetAt(t, key).Ok?
    ensures CompactNode(GetAt(t, key).value, keep, at + Names(key))
    decreases |key|
  {
    var k := key[0].name;
    assert CompactNode(t[k], keep, at + [k]);
    assert at + Names(key) == at + [k] + Names(key[1..]);
    if |key| > 1 {
      CompactAt(t[k].m, key[1..], keep, at + [k]);
    } else {
      assert at + Names(key) == at + [k];
    }
  }

  /** Everything to keep below one place is to be kept below another as well. */
  ghost predicate KeepsBelow(keep: iset<seq<string>>, from: seq<string>, to: seq<string>) {
    forall path :: path != [] && from + path in keep ==> to + path in keep
  }

  lemma KeepsBelowStep(keep: iset<seq<string>>, from: seq<string>, to: seq<string>, k: string)
    requires KeepsBelow(keep, from, to)
    ensures KeepsBelow(keep, from + [k], to + [k]) && (from + [k] in keep ==> to + [k] in keep)
  {
    forall path | from + [k] + path in keep ensures to + [k] + path in keep {
      assert from + [k] + path == from + ([k] + path) && to + [k] + path == to + ([k] + path);
    }
    assert from + [k] + [] == from + [k] && to + [k] + [] == to + [k];
  }

  lemma {:induction false} MovedIsCompact(n: Node, keep: iset<seq<string>>, from: seq<string>, to: seq<string>)
    requires CompactNode(n, keep, from) && KeepsBelow(keep, from, to) && (from in keep ==> to in keep)
    ensures CompactNode(n, keep, to)
  {
    if n.Dict? {
      forall k | k in n.m ensures CompactNode(n.m[k], keep, to + [k]) {
        KeepsBelowStep(keep, from, to, k);
        MovedIsCompact(n.m[k], keep, from + [k], to + [k]);
      }
    }
  }

  /** An object moved to a free place leaves no empty dictionary behind or there, except at paths
      to keep, if and only if it holds something or its new path is one of these. */
  lemma RenameKeepsCompact(t: Tree, oldKey: seq<Key>, newKey: seq<Key>, keep: iset<seq<string>>)
    requires oldKey != [] && newKey != [] && Compact(t, keep, []) && KeptBy(keep, oldKey, [])
    requires PopAt(t, oldKey).Ok? && PopAt(t, oldKey).value.0.Dict?
    requires KeepsBelow(keep, Names(oldKey), Names(newKey))
    requires GetAt(PopAt(t, oldKey).value.1, newKey) == Err(NotFound)
    requires InsertAt(PopAt(t, oldKey).value.1, newKey, PopAt(t, oldKey).value.0.m).Ok?
    ensures var p := PopAt(t, oldKey).value;
            Compact(InsertAt(p.1, newKey, p.0.m).value, keep, []) <==> p.0.m != map[] || Names(newKey) in keep
  {
    var p := PopAt(t, oldKey).value;
    var after := InsertAt(p.1, newKey, p.0.m).value;
    PopKeepsCompact(t, oldKey, keep, []);
    assert [] + Names(oldKey) == Names(oldKey) && [] + Names(newKey) == Names(newKey);
    forall k | k in p.0.m ensures CompactNode(p.0.m[k], keep, Names(newKey) + [k]) {
      KeepsBelowStep(keep, Names(oldKey), Names(newKey), k);
      MovedIsCompact(p.0.m[k], keep, Names(oldKey) + [k], Names(newKey) + [k]);
    }
    if p.0.m != map[] || Names(newKey) in keep {
      InsertKeepsCompact(p.1, newKey, p.0.m, keep, []);
    } else if Compact(after, keep, []) {
      InsertedIsFound(p.1, newKey, p.0.m);
      CompactAt(after, newKey, keep, []);
    }
  }

  // ---------------------------------------------------------------- the manager

  /** The store of a running application. */
  class ConfigurationManager {
    var started: bool
    var data: Tree

    constructor ()
      ensures !started && data == map[]
    {
      started, data := false, map[];
    }

    /** Reads the configuration file; refused if that was done before. */
    method Start(file: string) returns (ok: bool)
      modifies this
      ensures ok <==> !old(started) && Loaded(file).Ok? && Loaded(file).value.Dict?
      ensures ok ==> started && Dict(data) == Loaded(file).value
      ensures !ok ==> started == old(started) && data == old(data)
    {
      if started {
        return false;
      }
      var r := Load(file);
      if r.Err? || !r.value.Dict? {
        return false;
      }
      data := r.value.m;
      started := true;
      return true;
    }

    method Update(key: seq<Key>, s: State) returns (r: Result<(), StoreError>)
      requires s.Group? || s.Items?
      modifies this`data
      ensures if !started then r == Err(NotStarted) else if key == [] then r == Err(EmptyKey)
              else r == match UpdateAt(old(data), key, s) { case Ok(_) => Ok(()) case Err(e) => Err(e) }
      ensures data == if r.Ok? then UpdateAt(old(data), key, s).value else old(data)
    {
      if !started {
        return Err(NotStarted);
      }
      if key == [] {
        return Err(EmptyKey);
      }
      match UpdateAt(data, key, s)
      case Ok(t) =>
        data := t;
        r := Ok(());
      case Err(e) =>
        r := Err(e);
    }

    /** Moves an object. An object that cannot be put in its new place is lost; one that is not a
        dictionary leaves an empty one there. */
    method Rename(oldKey: seq<Key>, newKey: seq<Key>) returns (r: Result<(), StoreError>)
      modifies this`data
      ensures if !started then r == Err(NotStarted) else if oldKey == [] || newKey == [] then r == Err(EmptyKey)
              else match PopAt(old(data), oldKey)
                case Err(e) => r == Err(e) && data == old(data)
                case Ok(p) =>
                  var inserted := InsertAt(p.1, newKey, if p.0.Dict? then p.0.m else map[]);
                  && r == (if p.0.Dict? && inserted.Ok? then Ok(()) else Err(NotADictionary))
                  && data == if inserted.Ok? then inserted.value else p.1
      ensures !started || oldKey == [] || newKey == [] ==> data == old(data)
      ensures r.Ok? ==> forall path :: path != [] && !(Names(oldKey) <= path) && !(Names(newKey) <= path) ==>
                Setting(data, path) == Setting(old(data), path)
    {
      if !started {
        return Err(NotStarted);
      }
      if oldKey == [] || newKey == [] {
        return Err(EmptyKey);
      }
      match PopAt(data, oldKey)
      case Err(e) =>
        return Err(e);
      case Ok(p) =>
        data := p.1;
        var inserted := InsertAt(p.1, newKey, if p.0.Dict? then p.0.m else map[]);
        if inserted.Err? {
          return Err(NotADictionary);
        }
        if p.0.Dict? {
          forall path | path != [] && !(Names(oldKey) <= path) && !(Names(newKey) <= path)
            ensures Setting(inserted.value, path) == Setting(old(data), path)
          {
            RenameMovesOne(old(data), oldKey, newKey, path);
          }
        }
        data := inserted.value;
        return if p.0.Dict? then Ok(()) else Err(NotADictionary);
    }

    /** Deletes an object; deleting what is not there is not an error. */
    method Delete(key: seq<Key>) returns (r: Result<(), StoreError>)
      modifies this`data
      ensures if !started then r == Err(NotStarted) else if key == [] then r == Err(EmptyKey)
              else r == if PopAt(old(data), key) == Err(NotADictionary) then Err(NotADictionary) else Ok(())
      ensures data == if started && key != [] && PopAt(old(data), key).Ok? then PopAt(old(data), key).value.1
          else old(data)
      ensures r.Ok? ==> GetAt(data, key).Err?
      ensures forall path :: path != [] && !(Names(key) <= path) ==> Setting(data, path) == Setting(old(data), path)
    {
      if !started {
        return Err(NotStarted);
      }
      if key == [] {
        return Err(EmptyKey);
      }
      PopErrors(data, key);
      PopFailsAsGet(data, key);
      match PopAt(data, key)
      case Ok(p) =>
        PoppedIsGone(data, key);
        forall path | path != [] && !(Names(key) <= path) ensures Setting(p.1, path) == Setting(data, path) {
          PopElsewhere(data, key, path);
        }
        data := p.1;
        r := Ok(());
      case Err(e) =>
        r := if e == NotADictionary then Err(e) else Ok(());
    }

    method Get(key: seq<Key>) returns (r: Result<Node, StoreError>)
      ensures r == if !started then Err(NotStarted) else if key == [] then Err(EmptyKey) else GetAt(data, key)
    {
      if !started {
        return Err(NotStarted);
      }
      if key == [] {
        return Err(EmptyKey);
      }
      return GetAt(data, key);
    }

    /** The text of the file that holds all data. */
    method SaveData(linesep: string) returns (r: Result<string, BuilderError>)
      ensures r == if Printable(Dict(data)) then Ok(FileText(Dict(data), linesep)) else Err(UnexpectedObject)
    {
      r := Save(Dict(data), linesep);
    }
  }

  lemma {:induction false} PopErrors(t: Tree, key: seq<Key>)
    requires key != []
    ensures PopAt(t, key).Err? ==> PopAt(t, key).error in {NotFound, NotADictionary}
    decreases |key|
  {
    if |key| > 1 && key[0].name in t && t[key[0].name].Dict? {
      PopErrors(t[key[0].name].m, key[1..]);
    }
  }
}
