/** Settings objects: how they give their state to the store and take it back, and what
    survives the way through the store and the configuration file. */
module Persistence {
  import opened Wrappers
  import opened LetterCase
  import opened ConfigText
  import opened ConfigFile
  import opened ConfigRoundTrip
  import opened ConfigLimits
  import Store = SettingsStore

  datatype Kind = FlagKind | TextKind | ListKind

  datatype Content = Nil | Flag(b: bool) | Words(s: string) | Many(items: seq<string>)

  /** Settings with their values: a setting without explicit content has its default. The
      items of a collection all have the settings of `item`. */
  datatype Settings =
    | Simple(kind: Kind, nillable: bool, explicit: Option<Content>)
    | Branch(m: map<string, Settings>)
    | Collection(statics: map<string, Settings>, item: Settings, items: map<string, Settings>)

  predicate Fits(kind: Kind, nillable: bool, c: Content) {
    match c
    case Nil => nillable
    case Flag(_) => kind.FlagKind?
    case Words(_) => kind.TextKind?
    case Many(_) => kind.ListKind?
  }

  /** The same settings with no explicit content. */
  function Blank(o: Settings): Settings {
    match o
    case Simple(kind, nillable, _) => Simple(kind, nillable, None)
    case Branch(m) => Branch(map k | k in m :: Blank(m[k]))
    case Collection(statics, item, _) => Collection(map k | k in statics :: Blank(statics[k]), item, map[])
  }

  predicate Valid(o: Settings) {
    match o
    case Simple(kind, nillable, explicit) => explicit.Some? ==> Fits(kind, nillable, explicit.value)
    case Branch(m) => forall k :: k in m ==> Valid(m[k])
    case Collection(statics, item, items) =>
      && statics.Keys !! items.Keys
      && (forall k :: k in statics ==> Valid(statics[k]))
      && (forall k :: k in items ==> Valid(items[k]) && Blank(items[k]) == item)
  }

  // ---------------------------------------------------------------- state

  function ContentNode(c: Content): Node {
    match c
    case Nil => Null
    case Flag(b) => Str(if b then "true" else "false")
    case Words(s) => Str(s)
    case Many(items) => Lst(items)
  }

  function GetState(o: Settings): (s: Store.State)
    ensures o.Branch? ==> s.Group?
    ensures o.Collection? ==> s.Items?
  {
    match o
    case Simple(_, _, explicit) => if explicit.None? then Store.Default else Store.Value(ContentNode(explicit.value))
    case Branch(m) => Store.Group(map k | k in m :: GetState(m[k]))
    case Collection(statics, _, items) =>
      Store.Items(map k | k in items.Keys + statics.Keys :: if k in statics then GetState(statics[k])
          else GetState(items[k]))
  }

  /** The content a stored value stands for; nothing if the setting does not accept it. */
  function NodeContent(kind: Kind, nillable: bool, n: Node): Option<Content> {
    match n
    case Null => if nillable then Some(Nil) else None
    case Str(s) =>
      if kind.TextKind? then Some(Words(s))
      else if kind.FlagKind? && Lower(s) in {"true", "yes", "on", "1"} then Some(Flag(true))
      else if kind.FlagKind? && Lower(s) in {"false", "no", "off", "0"} then Some(Flag(false))
      else None
    case Lst(items) => if kind.ListKind? then Some(Many(items)) else None
    case _ => None
  }

  /** Settings after taking stored data: settings that are not mentioned, or whose value is
      not accepted, stay as they are; the items of a collection are those mentioned. */
  function SetState(o: Settings, n: Node): Settings
    decreases n
  {
    match o
    case Simple(kind, nillable, _) =>
      var c := NodeContent(kind, nillable, n);
      if c.Some? then Simple(kind, nillable, c) else o
    case Branch(m) =>
      if !n.Dict? then o else Branch(map k | k in m :: if k in n.m then SetState(m[k], n.m[k]) else m[k])
    case Collection(statics, item, _) =>
      if !n.Dict? then o
      else Collection(map k | k in statics :: if k in n.m then SetState(statics[k], n.m[k]) else statics[k], item,
                      map k | k in n.m && k !in statics :: SetState(item, n.m[k]))
  }

  /** An object created from what the store has for it, if anything. */
  function Reloaded(o: Settings, stored: Result<Node, Store.StoreError>): Settings {
    if stored.Ok? then SetState(Blank(o), stored.value) else Blank(o)
  }

  // ---------------------------------------------------------------- what the store keeps

  predicate HasExplicit(o: Settings) {
    match o
    case Simple(_, _, explicit) => explicit.Some?
    case Branch(m) => exists k :: k in m && HasExplicit(m[k])
    case Collection(statics, _, items) =>
      (exists k :: k in statics && HasExplicit(statics[k])) || (exists k :: k in items && HasExplicit(items[k]))
  }

  /** Every item of every collection has something explicit about it. */
  predicate ItemsExplicit(o: Settings) {
    match o
    case Simple(_, _, _) => true
    case Branch(m) => forall k :: k in m ==> ItemsExplicit(m[k])
    case Collection(statics, _, items) =>
      && (forall k :: k in statics ==> ItemsExplicit(statics[k]))
      && (forall k :: k in items ==> HasExplicit(items[k]) && ItemsExplicit(items[k]))
  }

  lemma {:induction false} StateWellFormed(o: Settings)
    ensures Store.WellFormed(GetState(o))
  {
    match o
    case Simple(_, _, _) =>
    case Branch(m) =>
      forall k | k in m ensures Store.WellFormed(GetState(m[k])) { StateWellFormed(m[k]); }
    case Collection(statics, _, items) =>
      forall k | k in statics ensures Store.WellFormed(GetState(statics[k])) { StateWellFormed(statics[k]); }
      forall k | k in items ensures Store.WellFormed(GetState(items[k])) { StateWellFormed(items[k]); }
  }

  lemma {:induction false} NothingExplicit(o: Settings)
    requires Valid(o) && ItemsExplicit(o) && !HasExplicit(o)
    ensures o == Blank(o)
  {
    match o
    case Simple(_, _, _) =>
    case Branch(m) =>
      forall k | k in m ensures m[k] == Blank(m[k]) { NothingExplicit(m[k]); }
      assert m == Blank(o).m;
    case Collection(statics, _, items) =>
      forall k | k in statics ensures statics[k] == Blank(statics[k]) { NothingExplicit(statics[k]); }
      assert statics == Blank(o).statics;
      assert items == map[];
  }

  lemma LowerFlags()
    ensures Lower("true") == "true" && Lower("false") == "false"
  {
    LowerSpells("true", "true");
    LowerSpells("false", "false");
  }

  lemma ContentSurvives(kind: Kind, nillable: bool, c: Content)
    requires Fits(kind, nillable, c)
    ensures NodeContent(kind, nillable, ContentNode(c)) == Some(c)
  {
    LowerFlags();
  }

  // ---------------------------------------------------------------- what stored data means

  /** A text stands for a flag exactly when it is one of eight words in small or capital letters. */
  lemma FlagWords(nillable: bool, s: string)
    ensures NodeContent(FlagKind, nillable, Str(s)) == Some(Flag(true)) <==>
            Spells(s, "true") || Spells(s, "yes") || Spells(s, "on") || Spells(s, "1")
    ensures NodeContent(FlagKind, nillable, Str(s)) == Some(Flag(false)) <==>
            Spells(s, "false") || Spells(s, "no") || Spells(s, "off") || Spells(s, "0")
    ensures NodeContent(FlagKind, nillable, Str(s)) in {None, Some(Flag(true)), Some(Flag(false))}
    ensures ContentNode(Flag(true)) == Str("true") && ContentNode(Flag(false)) == Str("false")
  {
    LowerSpells(s, "true");
    LowerSpells(s, "yes");
    LowerSpells(s, "on");
    LowerSpells(s, "1");
    LowerSpells(s, "false");
    LowerSpells(s, "no");
    LowerSpells(s, "off");
    LowerSpells(s, "0");
    hide Spells, Lower;
  }

  /** What an object has at a path of setting names; collections have their items only while they are stored. */
  function Member(o: Settings, path: seq<string>): Option<Settings>
    decreases |path|
  {
    if path == [] then Some(o)
    else
      match o
      case Simple(_, _, _) => None
      case Branch(m) => if path[0] in m then Member(m[path[0]], path[1..]) else None
      case Collection(statics, _, items) =>
        if path[0] in statics then Member(statics[path[0]], path[1..])
        else if path[0] in items then Member(items[path[0]], path[1..])
        else None
  }

  function Stored(n: Node, path: seq<string>): Option<Node>
    decreases |path|
  {
    if path == [] then Some(n)
    else if n.Dict? && path[0] in n.m then Stored(n.m[path[0]], path[1..])
    else None
  }

  /** No name on the path is that of a collection item. */
  predicate Fixed(o: Settings, path: seq<string>)
    decreases |path|
  {
    path == [] ||
    match o
    case Simple(_, _, _) => true
    case Branch(m) => path[0] in m ==> Fixed(m[path[0]], path[1..])
    case Collection(statics, _, _) => path[0] in statics && Fixed(statics[path[0]], path[1..])
  }

  /** Taking stored data decides about every setting on its own: one whose stored value is acceptable has that value,
      and every other one, mentioned or not, has the value it had. */
  lemma {:induction false} SetStateBySetting(o: Settings, n: Node, path: seq<string>)
    requires Fixed(o, path) && Member(o, path).Some? && Member(o, path).value.Simple?
    ensures var s := Member(o, path).value;
            var stored := Stored(n, path);
            Member(SetState(o, n), path) ==
            if stored.Some? && NodeContent(s.kind, s.nillable, stored.value).Some?
            then Some(Simple(s.kind, s.nillable, NodeContent(s.kind, s.nillable, stored.value)))
            else Some(s)
    decreases |path|
  {
    if path != [] && n.Dict? && path[0] in n.m {
      match o
      case Branch(m) => SetStateBySetting(m[path[0]], n.m[path[0]], path[1..]);
      case Collection(statics, _, _) => SetStateBySetting(statics[path[0]], n.m[path[0]], path[1..]);
    }
  }

  /** The items of a collection become exactly those mentioned, each made from what is stored for it; data that
      is no group of names changes nothing. */
  lemma ItemsAreMentioned(statics: map<string, Settings>, item: Settings, items: map<string, Settings>, n: Node,
                          k: string)
    requires k !in statics
    ensures var o := Collection(statics, item, items);
            Member(SetState(o, n), [k]) ==
            if !n.Dict? then Member(o, [k])
            else if Stored(n, [k]).Some? then Some(SetState(item, n.m[k]))
            else None
  {
  }

  /** What `o` comes back as from an entry of the store. */
  function FromEntry(o: Settings, entry: Option<Node>): Settings {
    if entry.Some? then SetState(Blank(o), entry.value) else Blank(o)
  }

  /** Merged into any dictionary, the state of an object gives the object back; it leaves an
      entry if anything about the object is explicit. */
  lemma {:induction false} StateSurvives(o: Settings, prior: Store.Tree, k: string)
    requires Valid(o) && ItemsExplicit(o)
    ensures FromEntry(o, Store.MergedEntry(prior, k, GetState(o))) == o
    ensures HasExplicit(o) ==> Store.MergedEntry(prior, k, GetState(o)).Some?
    decreases o, 1
  {
    match o
    case Simple(kind, nillable, explicit) =>
      if explicit.Some? {
        ContentSurvives(kind, nillable, explicit.value);
      }
    case Branch(m) =>
      var sub := Store.SubTree(prior, k);
      BranchSurvives(o, sub);
    case Collection(statics, item, items) =>
      var sub := Store.SubTree(prior, k);
      CollectionSurvives(o, sub - (sub.Keys - GetState(o).m.Keys));
  }

  lemma {:induction false} BranchSurvives(o: Settings, prior: Store.Tree)
    requires Valid(o) && ItemsExplicit(o) && o.Branch?
    ensures SetState(Blank(o), Dict(Store.Merged(prior, GetState(o)))) == o
    ensures HasExplicit(o) ==> Store.Merged(prior, GetState(o)) != map[]
    ensures Store.Merged(prior, GetState(o)) == map[] ==> Blank(o) == o
    decreases o, 0
  {
    var s := GetState(o);
    var r := Store.Merged(prior, s);
    forall k | k in o.m ensures (if k in r then SetState(Blank(o.m[k]), r[k])
        else Blank(o.m[k])) == o.m[k] && (HasExplicit(o.m[k]) ==> k in r) {
      StateSurvives(o.m[k], prior, k);
      assert s.m[k] == GetState(o.m[k]);
    }
    assert SetState(Blank(o), Dict(r)).m == o.m;
    if r == map[] {
      assert !HasExplicit(o);
      NothingExplicit(o);
    }
  }

  lemma {:induction false} CollectionSurvives(o: Settings, prior: Store.Tree)
    requires Valid(o) && ItemsExplicit(o) && o.Collection?
    requires prior.Keys <= o.items.Keys + o.statics.Keys
    ensures SetState(Blank(o), Dict(Store.Merged(prior, GetState(o)))) == o
    ensures HasExplicit(o) ==> Store.Merged(prior, GetState(o)) != map[]
    ensures Store.Merged(prior, GetState(o)) == map[] ==> Blank(o) == o
    decreases o, 0
  {
    var s := GetState(o);
    var r := Store.Merged(prior, s);
    forall k | k in o.statics
      ensures (if k in r then SetState(Blank(o.statics[k]), r[k])
          else Blank(o.statics[k])) == o.statics[k] && (HasExplicit(o.statics[k]) ==> k in r)
    {
      StateSurvives(o.statics[k], prior, k);
      assert s.m[k] == GetState(o.statics[k]);
    }
    forall k | k in o.items ensures k in r && SetState(o.item, r[k]) == o.items[k] {
      StateSurvives(o.items[k], prior, k);
      assert s.m[k] == GetState(o.items[k]);
    }
    var back := SetState(Blank(o), Dict(r));
    assert back.statics == o.statics;
    assert back.items.Keys == o.items.Keys;
    assert back.items == o.items;
    if r == map[] {
      assert !HasExplicit(o);
      NothingExplicit(o);
    }
  }

  /** What comes back from a new entry has something explicit in every item of a collection. */
  lemma {:induction false} ComesBackExplicit(o: Settings, k: string)
    requires Valid(o)
    ensures var entry := Store.MergedEntry(map[], k, GetState(o));
            ItemsExplicit(FromEntry(o, entry)) && (entry.Some? ==> HasExplicit(FromEntry(o, entry)))
    decreases o
  {
    var s := GetState(o);
    var entry := Store.MergedEntry(map[], k, s);
    var back := FromEntry(o, entry);
    match o
    case Simple(kind, nillable, explicit) =>
      if explicit.Some? {
        ContentSurvives(kind, nillable, explicit.value);
      }
    case Branch(m) =>
      var r := Store.Merged(map[], s);
      forall x | x in m
        ensures ItemsExplicit(Blank(m[x]))
        ensures x in r ==> HasExplicit(SetState(Blank(m[x]), r[x])) && ItemsExplicit(SetState(Blank(m[x]), r[x]))
      {
        assert s.m[x] == GetState(m[x]);
        BlankIsExplicit(m[x]);
        ComesBackExplicit(m[x], x);
      }
      if entry.Some? {
        var x :| x in r;
        assert x in m && HasExplicit(back.m[x]);
      }
    case Collection(statics, item, items) =>
      var none: Store.Tree := map[];
      assert none - (none.Keys - s.m.Keys) == none;
      var r := Store.Merged(map[], s);
      forall x | x in statics
        ensures ItemsExplicit(Blank(statics[x]))
        ensures x in r ==>
          HasExplicit(SetState(Blank(statics[x]), r[x])) && ItemsExplicit(SetState(Blank(statics[x]), r[x]))
      {
        assert s.m[x] == GetState(statics[x]);
        BlankIsExplicit(statics[x]);
        ComesBackExplicit(statics[x], x);
      }
      forall x | x in items && x in r ensures HasExplicit(SetState(item, r[x])) && ItemsExplicit(SetState(item, r[x])) {
        assert s.m[x] == GetState(items[x]);
        ComesBackExplicit(items[x], x);
      }
      if entry.Some? {
        assert forall x :: x in back.items ==> x in items && x in r;
        var x :| x in r;
        assert if x in statics then HasExplicit(back.statics[x]) else HasExplicit(back.items[x]);
      }
  }

  lemma {:induction false} BlankIsExplicit(o: Settings)
    ensures ItemsExplicit(Blank(o))
  {
    match o
    case Simple(_, _, _) =>
    case Branch(m) =>
      forall k | k in m ensures ItemsExplicit(Blank(m[k])) { BlankIsExplicit(m[k]); }
    case Collection(statics, _, _) =>
      forall k | k in statics ensures ItemsExplicit(Blank(statics[k])) { BlankIsExplicit(statics[k]); }
  }

  /** An object stored in a new place comes back as it was if and only if every item of its
      collections has something explicit about it. */
  lemma NewObjectSurvives(o: Settings, k: string)
    requires Valid(o)
    ensures FromEntry(o, Store.MergedEntry(map[], k, GetState(o))) == o <==> ItemsExplicit(o)
  {
    if ItemsExplicit(o) {
      StateSurvives(o, map[], k);
    }
    ComesBackExplicit(o, k);
  }

  // ---------------------------------------------------------------- through the configuration file

  /** Data that a configuration file gives back exactly. */
  predicate Solid(n: Node) {
    match n
    case Null => true
    case Str(s) => Representable(s)
    case Lst(items) => items != [] && AllRepresentable(items)
    case Dict(m) => forall k :: k in m ==> SolidName(k) && Solid(m[k])
    case Other => false
  }

  predicate SolidName(k: string) {
    k != "" && Representable(k)
  }

  /** State with nothing in it that the file cannot carry. */
  predicate Carriable(s: Store.State) {
    match s
    case Default => true
    case Value(n) => !n.Dict? && Solid(n)
    case Group(m) => forall k :: k in m ==> SolidName(k) && Carriable(m[k])
    case Items(m) => forall k :: k in m ==> SolidName(k) && Carriable(m[k])
  }

  lemma {:induction false} SolidIsStored(n: Node)
    requires Solid(n)
    ensures Storable(n) && Normal(n) == n
  {
    if n.Dict? {
      forall k | k in n.m ensures k != "" && Representable(k) && Storable(n.m[k]) && Normal(n.m[k]) == n.m[k] {
        assert SolidName(k);
        SolidIsStored(n.m[k]);
      }
    }
  }

  lemma {:induction false} MergedIsSolid(prior: Store.Tree, s: Store.State)
    requires (s.Group? || s.Items?) && Carriable(s) && Solid(Dict(prior))
    ensures Solid(Dict(Store.Merged(prior, s)))
    decreases s
  {
    forall k | k in Store.Merged(prior, s) ensures SolidName(k) && Solid(Store.Merged(prior, s)[k]) {
      if k in s.m {
        assert SolidName(k) && Carriable(s.m[k]);
        if s.m[k].Group? || s.m[k].Items? {
          var sub := Store.SubTree(prior, k);
          assert Solid(Dict(sub)) by { assert k in prior ==> Solid(prior[k]); }
          MergedIsSolid(if s.m[k].Items? then sub - (sub.Keys - s.m[k].m.Keys) else sub, s.m[k]);
        }
      }
    }
  }

  lemma {:induction false} UpdatedIsSolid(t: Store.Tree, key: seq<Store.Key>, s: Store.State)
    requires key != [] && (s.Group? || s.Items?) && Carriable(s) && Solid(Dict(t))
    requires forall i :: 0 <= i < |key| ==> SolidName(key[i].name)
    requires Store.UpdateAt(t, key, s).Ok?
    ensures Solid(Dict(Store.UpdateAt(t, key, s).value))
    decreases |key|
  {
    var n := if key[0].name in t then t[key[0].name] else Dict(map[]);
    assert Solid(n);
    if n.Dict? {
      if |key| > 1 {
        UpdatedIsSolid(n.m, key[1..], s);
      } else {
        MergedIsSolid(n.m, s);
      }
    }
  }

  /** What an updated object is found as: some dictionary with the state merged in, or nothing
      if that is empty. */
  lemma {:induction false} FoundAfterUpdate(t: Store.Tree, key: seq<Store.Key>,
      s: Store.State) returns (prior: Store.Tree)
    requires key != [] && (s.Group? || s.Items?) && s.m != map[] && Store.UpdateAt(t, key, s).Ok?
    ensures var found := Store.GetAt(Store.UpdateAt(t, key, s).value, key);
            found == Ok(Dict(Store.Merged(prior, s))) || (found.Err? && Store.Merged(prior, s) == map[])
    decreases |key|
  {
    var n := if key[0].name in t then t[key[0].name] else Dict(map[]);
    if |key| > 1 {
      prior := FoundAfterUpdate(n.m, key[1..], s);
    } else {
      prior := n.m;
    }
  }

  /** An object that was just saved in the store is created again as it was. */
  lemma ObjectFound(t: Store.Tree, key: seq<Store.Key>, o: Settings)
    requires Valid(o) && o.Branch? && ItemsExplicit(o)
    requires key != [] && Store.UpdateAt(t, key, GetState(o)).Ok?
    ensures Reloaded(o, Store.GetAt(Store.UpdateAt(t, key, GetState(o)).value, key)) == o
  {
    if o.m == map[] {
      EmptyObject(o, Store.GetAt(Store.UpdateAt(t, key, GetState(o)).value, key));
    } else {
      assert GetState(o).m.Keys == o.m.Keys;
      var prior := FoundAfterUpdate(t, key, GetState(o));
      hide Valid, ItemsExplicit, HasExplicit, GetState, Blank, SetState, Store.Merged, Store.UpdateAt, Store.GetAt;
      BranchSurvives(o, prior);
    }
  }

  lemma EmptyObject(o: Settings, stored: Result<Node, Store.StoreError>)
    requires o.Branch? && o.m == map[]
    ensures Reloaded(o, stored) == o
  {
    assert Blank(o).m == o.m;
    if stored.Ok? && stored.value.Dict? {
      assert SetState(Blank(o), stored.value).m == o.m;
    }
  }

  /** The store after an object was saved in it. */
  function Saved(t: Store.Tree, key: seq<Store.Key>, o: Settings): Store.Tree
    requires o.Branch? && key != [] && Store.UpdateAt(t, key, GetState(o)).Ok?
  {
    Store.UpdateAt(t, key, GetState(o)).value
  }

  /** Saving an object in the store and the store in a file, loading the file and creating the
      object again restores every explicit setting and leaves every other at its default. */
  lemma ObjectPersists(t: Store.Tree, key: seq<Store.Key>, o: Settings, sep: string)
    requires Valid(o) && o.Branch? && ItemsExplicit(o) && Carriable(GetState(o))
    requires Solid(Dict(t)) && key != [] && forall i :: 0 <= i < |key| ==> SolidName(key[i].name)
    requires Store.UpdateAt(t, key, GetState(o)).Ok? && LineSeparator(sep)
    ensures Printable(Dict(Saved(t, key, o)))
    ensures Loaded(FileText(Dict(Saved(t, key, o)), sep)) == Ok(Dict(Saved(t, key, o)))
    ensures Reloaded(o, Store.GetAt(Saved(t, key, o), key)) == o
  {
    hide Loaded, FileText, Storable, Normal, Valid, ItemsExplicit, GetState, Reloaded, Carriable;
    hide Store.UpdateAt, Store.GetAt;
    UpdatedIsSolid(t, key, GetState(o));
    hide Solid;
    SolidIsStored(Dict(Saved(t, key, o)));
    StoredDataIsLoaded(Dict(Saved(t, key, o)), sep);
    ObjectFound(t, key, o);
  }
}
