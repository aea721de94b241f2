/** The two indexes of a list element against its children (sipsimple/payloads/__init__.py, `XMLListMixin` and
  * `XMLElementChild`). */
module XmlLists {
  import opened Wrappers
  import opened XmlOrder

  /** A payload object and the XML element it wraps. */
  class Item {
    const kind: string
    const id: Option<string>
    const element: Element

    constructor (kind: string, id: Option<string>, element: Element)
      ensures this.kind == kind && this.id == id && this.element == element
    {
      this.kind, this.id, this.element := kind, id, element;
    }
  }

  type Key = (string, string)

  function KeyOf(item: Item): Key
    requires item.id.Some?
  {
    (item.kind, item.id.value)
  }

  /** What a list class declares: the order of its children, the classes of its items, and of each child attribute. */
  datatype Schema = Schema(order: Order, itemKinds: set<string>, childKinds: map<string, string>) {
    /** No class serves two purposes. */
    ghost predicate Valid() {
      && (forall n :: n in childKinds ==> childKinds[n] !in itemKinds)
      && (forall m, n :: m in childKinds && n in childKinds && childKinds[m] == childKinds[n] ==> m == n)
    }
  }

  /** The state of a list: its child elements, the items by element and by class and id, and the child attributes that
    * are set.  `arrivals` records the children in the order they were inserted. */
  datatype Held = Held(
    children: seq<Element>, items: map<Element, Item>, ids: map<Key, Item>, attributes: map<string, Item>,
    arrivals: seq<Element>)

  // ------------------------------------------------------------------ what the indexes promise

  /** The items by element are children of the list, each under its own element. */
  ghost predicate ItemsAreChildren(schema: Schema, children: seq<Element>, items: map<Element, Item>) {
    forall e :: e in items ==> e in children && items[e].element == e && items[e].kind in schema.itemKinds
  }

  /** What is found by class and id is an item with that class and id, found by its element too. */
  ghost predicate IdsAreItems(items: map<Element, Item>, ids: map<Key, Item>) {
    forall k :: k in ids ==>
                  && ids[k].id.Some? && KeyOf(ids[k]) == k
                  && ids[k].element in items && items[ids[k].element] == ids[k]
  }

  /** Every item with an id is found by it. */
  ghost predicate ItemsHaveIds(items: map<Element, Item>, ids: map<Key, Item>) {
    forall e :: e in items && items[e].id.Some? ==> KeyOf(items[e]) in ids && ids[KeyOf(items[e])] == items[e]
  }

  ghost predicate AttributesAreChildren(
    schema: Schema, children: seq<Element>, items: map<Element, Item>, attributes: map<string, Item>)
  {
    forall n :: n in attributes ==>
                  && n in schema.childKinds && attributes[n].kind == schema.childKinds[n]
                  && attributes[n].element in children && attributes[n].element !in items
  }

  ghost predicate AttributesDiffer(attributes: map<string, Item>) {
    forall m, n :: m in attributes && n in attributes && attributes[m].element == attributes[n].element ==> m == n
  }

  /** Both indexes and the child attributes agree with the children. */
  ghost predicate Agrees(schema: Schema, h: Held) {
    && NoRepeats(h.children)
    && ItemsAreChildren(schema, h.children, h.items)
    && IdsAreItems(h.items, h.ids)
    && ItemsHaveIds(h.items, h.ids)
    && AttributesAreChildren(schema, h.children, h.items, h.attributes)
    && AttributesDiffer(h.attributes)
  }

  ghost predicate IsAttribute(h: Held, e: Element) {
    exists n :: n in h.attributes && h.attributes[n].element == e
  }

  /** Every child is an item or a child attribute, as in a list that was not parsed. */
  ghost predicate Complete(h: Held) {
    forall e :: e in h.children ==> e in h.items || IsAttribute(h, e)
  }

  /** No other object held wraps the element of this one. */
  ghost predicate WrapsAlone(h: Held, item: Item) {
    && (item.element in h.items ==> h.items[item.element] == item)
    && (forall n :: n in h.attributes && h.attributes[n].element == item.element ==> h.attributes[n] == item)
  }

  /** Two items of one class never share an id. */
  lemma IdsAreUnique(schema: Schema, h: Held, a: Element, b: Element)
    requires Agrees(schema, h)
    requires a in h.items && b in h.items && h.items[a].id.Some? && h.items[b].id.Some?
    requires KeyOf(h.items[a]) == KeyOf(h.items[b])
    ensures a == b
  {
  }

  // ------------------------------------------------------------------ the operations, on values

  /** Insert an element unless it is there. */
  function PutIn(order: Order, h: Held, e: Element): Held {
    if e in h.children then h else h.(children := Inserted(order, h.children, e), arrivals := h.arrivals + [e])
  }

  function TakeOut(h: Held, e: Element): Held {
    h.(children := Without(h.children, e), arrivals := Without(h.arrivals, e))
  }

  function Dropped(h: Held, item: Item): Held {
    TakeOut(h, item.element).(
      items := h.items - {item.element}, ids := if item.id.Some? then h.ids - {KeyOf(item)} else h.ids)
  }

  /** A child that is not an item is taken out before the indexes are found not to hold it. */
  function Removed(h: Held, item: Item): Held {
    if item.element !in h.children then h
    else if item.id.Some? && KeyOf(item) !in h.ids then TakeOut(h, item.element)
    else Dropped(h, item)
  }

  function Attached(schema: Schema, h: Held, item: Item): Held {
    PutIn(schema.order, h, item.element).(
      items := h.items[item.element := item], ids := if item.id.Some? then h.ids[KeyOf(item) := item] else h.ids)
  }

  function Added(schema: Schema, h: Held, item: Item): Held {
    if item.kind !in schema.itemKinds then h
    else if item.id.Some? && KeyOf(item) in h.ids then
      if h.ids[KeyOf(item)] == item then h else Attached(schema, Dropped(h, h.ids[KeyOf(item)]), item)
    else Attached(schema, h, item)
  }

  function Cleared(h: Held, name: string): Held {
    if name in h.attributes then
      TakeOut(h, h.attributes[name].element).(attributes := h.attributes - {name})
    else h
  }

  function Assigned(schema: Schema, h: Held, name: string, value: Option<Item>): Held {
    if value == (if name in h.attributes then Some(h.attributes[name]) else None) then h
    else if value.None? then Cleared(h, name)
    else
      var less := Cleared(h, name);
      PutIn(schema.order, less, value.value.element).(attributes := less.attributes[name := value.value])
  }

  datatype Change = Add(item: Item) | Remove(item: Item) | Assign(name: string, value: Option<Item>)

  function Do(schema: Schema, h: Held, change: Change): Held {
    match change
    case Add(item) => Added(schema, h, item)
    case Remove(item) => Removed(h, item)
    case Assign(name, value) => Assigned(schema, h, name, value)
  }

  /** The objects of a change wrap their elements alone, only an item is removed as one, and a value assigned has the
    * class of its attribute. */
  ghost predicate Proper(schema: Schema, h: Held, change: Change) {
    match change
    case Add(item) => WrapsAlone(h, item)
    case Remove(item) => item.element in h.children ==> item.element in h.items && h.items[item.element] == item
    case Assign(name, value) =>
      name in schema.childKinds
          && (value.Some? ==> value.value.kind == schema.childKinds[name] && WrapsAlone(h, value.value))
  }

  // ------------------------------------------------------------------ what every run keeps

  lemma TakeOutKeeps(order: Order, h: Held, e: Element)
    ensures NoRepeats(h.children) ==> NoRepeats(TakeOut(h, e).children)
    ensures IsStableSort(order, h.children, h.arrivals) ==>
        IsStableSort(order, TakeOut(h, e).children, TakeOut(h, e).arrivals)
  {
    WithoutKeepsOrder(order, h.children, e);
    if IsStableSort(order, h.children, h.arrivals) {
      WithoutIsStableSort(order, h.children, h.arrivals, e);
    }
  }

  lemma PutInKeeps(order: Order, h: Held, e: Element)
    ensures NoRepeats(h.children) ==> NoRepeats(PutIn(order, h, e).children)
    ensures NoRepeats(h.children) ==> forall x :: x in PutIn(order, h, e).children <==> x == e || x in h.children
    ensures IsStableSort(order, h.children, h.arrivals) ==>
              IsStableSort(order, PutIn(order, h, e).children, PutIn(order, h, e).arrivals)
  {
    if e !in h.children {
      if NoRepeats(h.children) {
        InsertedHolds(order, h.children, e);
      }
      if IsStableSort(order, h.children, h.arrivals) {
        InsertedIsStableSort(order, h.children, h.arrivals, e);
      }
    }
  }

  lemma IndexesWithout(schema: Schema, items: map<Element, Item>, ids: map<Key, Item>, item: Item)
    requires IdsAreItems(items, ids) && ItemsHaveIds(items, ids)
    requires forall e :: e in items ==> items[e].element == e
    requires item.element in items && items[item.element] == item
    ensures var fewer := if item.id.Some? then ids - {KeyOf(item)} else ids;
            IdsAreItems(items - {item.element}, fewer) && ItemsHaveIds(items - {item.element}, fewer)
  {
  }

  lemma IndexesWith(items: map<Element, Item>, ids: map<Key, Item>, item: Item)
    requires IdsAreItems(items, ids) && ItemsHaveIds(items, ids)
    requires item.element in items ==> items[item.element] == item
    requires item.id.Some? ==> KeyOf(item) !in ids
    ensures var more := if item.id.Some? then ids[KeyOf(item) := item] else ids;
            IdsAreItems(items[item.element := item], more) && ItemsHaveIds(items[item.element := item], more)
  {
  }

  lemma DroppedAgrees(schema: Schema, h: Held, item: Item)
    requires Agrees(schema, h) && item.element in h.items && h.items[item.element] == item
    ensures Agrees(schema, Dropped(h, item))
    ensures item.id.Some? ==> KeyOf(item) !in Dropped(h, item).ids
  {
    TakeOutKeeps(schema.order, h, item.element);
    IndexesWithout(schema, h.items, h.ids, item);
    hide NoRepeats, IsStableSort, IdsAreItems, ItemsHaveIds, AttributesDiffer;
  }

  lemma ChildrenWith(schema: Schema, children: seq<Element>, more: seq<Element>, items: map<Element, Item>,
                     attributes: map<string, Item>, item: Item)
    requires ItemsAreChildren(schema, children, items) && AttributesAreChildren(schema, children, items, attributes)
    requires forall x :: x in children ==> x in more
    requires item.element in more && item.kind in schema.itemKinds
    requires forall n :: n in attributes ==> attributes[n].element != item.element
    ensures ItemsAreChildren(schema, more, items[item.element := item])
    ensures AttributesAreChildren(schema, more, items[item.element := item], attributes)
  {
  }

  lemma AttributesWith(schema: Schema, children: seq<Element>, more: seq<Element>, items: map<Element, Item>,
                       attributes: map<string, Item>, name: string, value: Item)
    requires ItemsAreChildren(schema, children, items) && AttributesAreChildren(schema, children, items, attributes)
    requires AttributesDiffer(attributes)
    requires forall x :: x in children ==> x in more
    requires value.element in more && value.element !in items
    requires name in schema.childKinds && value.kind == schema.childKinds[name]
    requires forall n :: n in attributes && n != name ==> attributes[n].element != value.element
    ensures ItemsAreChildren(schema, more, items)
    ensures AttributesAreChildren(schema, more, items, attributes[name := value])
    ensures AttributesDiffer(attributes[name := value])
  {
  }

  lemma AttachedAgrees(schema: Schema, h: Held, item: Item)
    requires schema.Valid() && Agrees(schema, h) && WrapsAlone(h, item) && item.kind in schema.itemKinds
    requires item.id.Some? ==> KeyOf(item) !in h.ids
    ensures Agrees(schema, Attached(schema, h, item))
  {
    PutInKeeps(schema.order, h, item.element);
    IndexesWith(h.items, h.ids, item);
    forall n | n in h.attributes ensures h.attributes[n].element != item.element {
      assert h.attributes[n].kind == schema.childKinds[n];
    }
    ChildrenWith(schema, h.children, PutIn(schema.order, h, item.element).children, h.items, h.attributes, item);
    hide NoRepeats, IsStableSort, ItemsAreChildren, IdsAreItems, ItemsHaveIds, AttributesAreChildren, AttributesDiffer,
        Inserted;
  }

  lemma AssignedAgrees(schema: Schema, h: Held, name: string, value: Option<Item>)
    requires schema.Valid() && Agrees(schema, h) && Proper(schema, h, Assign(name, value))
    ensures Agrees(schema, Assigned(schema, h, name, value))
  {
    var less := Cleared(h, name);
    ClearedAgrees(schema, h, name);
    if value.Some? {
      var e := value.value.element;
      ValueIsNew(schema, h, name, value.value);
      PutInKeeps(schema.order, less, e);
      AttributesWith(schema, less.children, PutIn(schema.order, less, e).children, less.items, less.attributes, name,
          value.value);
      hide NoRepeats, IsStableSort, IdsAreItems, ItemsHaveIds, ItemsAreChildren, AttributesAreChildren,
          AttributesDiffer, Inserted, Without;
    }
  }

  /** The element of a value assigned is neither an item's nor another attribute's. */
  lemma ValueIsNew(schema: Schema, h: Held, name: string, value: Item)
    requires schema.Valid() && Agrees(schema, h) && Proper(schema, h, Assign(name, Some(value)))
    ensures value.element !in h.items
    ensures forall n :: n in h.attributes && n != name ==> h.attributes[n].element != value.element
  {
    forall n | n in h.attributes && n != name ensures h.attributes[n].element != value.element {
      assert schema.childKinds[n] != schema.childKinds[name];
    }
  }

  lemma ClearedAgrees(schema: Schema, h: Held, name: string)
    requires Agrees(schema, h)
    ensures Agrees(schema, Cleared(h, name))
  {
    if name in h.attributes {
      TakeOutKeeps(schema.order, h, h.attributes[name].element);
      hide NoRepeats, IsStableSort, IdsAreItems, ItemsHaveIds;
    }
  }

  lemma ChangeAgrees(schema: Schema, h: Held, change: Change)
    requires schema.Valid() && Agrees(schema, h) && Proper(schema, h, change)
    ensures Agrees(schema, Do(schema, h, change))
  {
    match change
    case Add(item) =>
      if item.kind in schema.itemKinds {
        if item.id.Some? && KeyOf(item) in h.ids {
          var held := h.ids[KeyOf(item)];
          if held != item {
            DroppedAgrees(schema, h, held);
            AttachedAgrees(schema, Dropped(h, held), item);
          }
        } else {
          AttachedAgrees(schema, h, item);
        }
      }
    case Remove(item) => if item.element in h.children { DroppedAgrees(schema, h, item); }
    case Assign(name, value) => AssignedAgrees(schema, h, name, value);
  }

  lemma DroppedComplete(schema: Schema, h: Held, item: Item)
    requires Agrees(schema, h) && Complete(h)
    ensures Complete(Dropped(h, item))
  {
    var after := Dropped(h, item);
    forall x | x in after.children ensures x in after.items || IsAttribute(after, x) {
      assert x in h.items || IsAttribute(h, x);
    }
  }

  lemma AttachedComplete(schema: Schema, h: Held, item: Item)
    requires NoRepeats(h.children) && Complete(h)
    ensures Complete(Attached(schema, h, item))
  {
    PutInKeeps(schema.order, h, item.element);
    hide NoRepeats, IsStableSort, Inserted;
    var after := Attached(schema, h, item);
    forall x | x in after.children ensures x in after.items || IsAttribute(after, x) {
      assert x == item.element || x in h.items || IsAttribute(h, x);
    }
  }

  lemma ClearedComplete(schema: Schema, h: Held, name: string)
    requires Agrees(schema, h) && Complete(h)
    ensures Complete(Cleared(h, name))
  {
    var after := Cleared(h, name);
    forall x | x in after.children ensures x in after.items || IsAttribute(after, x) {
      assert x in h.items || IsAttribute(h, x);
      if x !in h.items {
        var n :| n in h.attributes && h.attributes[n].element == x;
        assert n in after.attributes;
      }
    }
  }

  lemma AssignedComplete(schema: Schema, h: Held, name: string, value: Option<Item>)
    requires schema.Valid() && Agrees(schema, h) && Complete(h) && Proper(schema, h, Assign(name, value))
    ensures Complete(Assigned(schema, h, name, value))
  {
    var less, after := Cleared(h, name), Assigned(schema, h, name, value);
    ClearedAgrees(schema, h, name);
    ClearedComplete(schema, h, name);
    if value.Some? && after != h {
      PutInKeeps(schema.order, less, value.value.element);
      hide Agrees, IsStableSort, NoRepeats;
      forall x | x in after.children ensures x in after.items || IsAttribute(after, x) {
        if x == value.value.element {
          assert name in after.attributes && after.attributes[name].element == x;
        } else {
          assert x in less.items || IsAttribute(less, x);
          if x !in less.items {
            var n :| n in less.attributes && less.attributes[n].element == x;
            assert n in after.attributes && after.attributes[n].element == x;
          }
        }
      }
    }
  }

  lemma ChangeComplete(schema: Schema, h: Held, change: Change)
    requires schema.Valid() && Agrees(schema, h) && Complete(h) && Proper(schema, h, change)
    ensures Complete(Do(schema, h, change))
  {
    match change
    case Add(item) =>
      if item.kind in schema.itemKinds {
        if item.id.Some? && KeyOf(item) in h.ids {
          var held := h.ids[KeyOf(item)];
          if held != item {
            DroppedAgrees(schema, h, held);
            DroppedComplete(schema, h, held);
            AttachedComplete(schema, Dropped(h, held), item);
          }
        } else {
          AttachedComplete(schema, h, item);
        }
      }
    case Remove(item) => DroppedComplete(schema, h, item);
    case Assign(name, value) => AssignedComplete(schema, h, name, value);
  }

  /** The children are in schema order, and in order of insertion within a rank. */
  ghost predicate InOrder(schema: Schema, h: Held) {
    IsStableSort(schema.order, h.children, h.arrivals)
  }

  lemma ChangeInOrder(schema: Schema, h: Held, change: Change)
    requires InOrder(schema, h)
    ensures InOrder(schema, Do(schema, h, change))
  {
    hide IsStableSort, Inserted;
    forall g: Held, e: Element
      ensures InOrder(schema, g) ==> InOrder(schema, TakeOut(g, e)) && InOrder(schema, PutIn(schema.order, g, e))
    {
      TakeOutKeeps(schema.order, g, e);
      PutInKeeps(schema.order, g, e);
    }
  }

  const EMPTY := Held([], map[], map[], map[], [])

  ghost function Run(schema: Schema, h: Held, changes: seq<Change>): Held
    decreases |changes|
  {
    if changes == [] then h else Run(schema, Do(schema, h, changes[0]), changes[1..])
  }

  ghost predicate ProperRun(schema: Schema, h: Held, changes: seq<Change>)
    decreases |changes|
  {
    changes == [] ||
    (Proper(schema, h, changes[0]) && ProperRun(schema, Do(schema, h, changes[0]), changes[1..]))
  }

  /** Through any run from an empty list, the indexes, the child attributes and the children agree, every child is
    * held, and the children are the stable sort, by schema rank, of what was inserted and not removed. */
  lemma {:induction false} RunAgrees(schema: Schema, h: Held, changes: seq<Change>)
    requires schema.Valid() && Agrees(schema, h) && Complete(h) && InOrder(schema, h) && ProperRun(schema, h, changes)
    ensures Agrees(schema, Run(schema, h, changes)) && Complete(Run(schema, h, changes))
        && InOrder(schema, Run(schema, h, changes))
    decreases |changes|
  {
    hide Agrees, Complete, InOrder, Proper, Do;
    if changes != [] {
      ChangeAgrees(schema, h, changes[0]);
      ChangeComplete(schema, h, changes[0]);
      ChangeInOrder(schema, h, changes[0]);
      RunAgrees(schema, Do(schema, h, changes[0]), changes[1..]);
    }
  }

  // ------------------------------------------------------------------ what one change does

  /** The elements of other items with the class and id of this one. */
  ghost function Rivals(h: Held, item: Item): set<Element> {
    set e | e in h.items && h.items[e] != item
            && item.id.Some? && h.items[e].id.Some? && KeyOf(h.items[e]) == KeyOf(item)
  }

  /** The list holds the item: as a child, by its element and, when it has an id, by its class and id. */
  ghost predicate Holds(h: Held, item: Item) {
    && item.element in h.children && item.element in h.items && h.items[item.element] == item
    && (item.id.Some? ==> KeyOf(item) in h.ids && h.ids[KeyOf(item)] == item)
  }

  /** Every item of `h` but those of the elements in `except` is held by `after`, which holds no others. */
  ghost predicate OthersHeld(h: Held, after: Held, except: set<Element>) {
    && (forall e :: e in h.children && e !in except ==> e in after.children)
    && (forall e :: e in after.children && e !in except ==> e in h.children)
    && (forall e :: e in h.items && e !in except ==> e in after.items && after.items[e] == h.items[e])
    && (forall e :: e in after.items && e !in except ==> e in h.items)
    && (forall k :: k in h.ids && h.ids[k].element !in except ==> k in after.ids && after.ids[k] == h.ids[k])
    && (forall k :: k in after.ids && after.ids[k].element !in except ==> k in h.ids && after.ids[k] == h.ids[k])
  }

  lemma PutInHolds(order: Order, h: Held, e: Element)
    ensures forall x :: x in PutIn(order, h, e).children <==> x == e || x in h.children
  {
    if e !in h.children {
      var p := Place(order, h.children, e);
      assert h.children == h.children[..p] + h.children[p..];
      assert Inserted(order, h.children, e)[p] == e;
    }
  }

  lemma OthersJoin(a: Held, b: Held, c: Held, first: set<Element>, second: set<Element>)
    requires OthersHeld(a, b, first) && OthersHeld(b, c, second)
    ensures OthersHeld(a, c, first + second)
  {
  }

  lemma DroppedHolds(schema: Schema, h: Held, item: Item)
    requires Agrees(schema, h) && item.element in h.items && h.items[item.element] == item
    ensures var after := Dropped(h, item);
            && item.element !in after.children && item.element !in after.items
            && (item.id.Some? ==> KeyOf(item) !in after.ids)
            && OthersHeld(h, after, {item.element})
  {
    hide NoRepeats, AttributesAreChildren, AttributesDiffer;
  }

  lemma AttachedHolds(schema: Schema, h: Held, item: Item)
    requires IdsAreItems(h.items, h.ids)
    requires item.id.Some? ==> KeyOf(item) !in h.ids
    ensures Holds(Attached(schema, h, item), item)
    ensures OthersHeld(h, Attached(schema, h, item), {item.element})
  {
    PutInHolds(schema.order, h, item.element);
    hide PutIn;
  }

  /** At most the item found by the class and id is replaced. */
  lemma RivalIsFound(schema: Schema, h: Held, item: Item)
    requires Agrees(schema, h)
    ensures if item.id.Some? && KeyOf(item) in h.ids && h.ids[KeyOf(item)] != item
            then Rivals(h, item) == {h.ids[KeyOf(item)].element} else Rivals(h, item) == {}
  {
    hide NoRepeats, AttributesAreChildren, AttributesDiffer;
  }

  /** An item that is added is held, as the last to arrive unless its element was a child already; the item of its
    * class and id, if there was another one, is held no more; and nothing else changes.  An item of a class that the
    * list does not take changes nothing. */
  lemma AddedIsHeld(schema: Schema, h: Held, item: Item)
    requires Agrees(schema, h) && WrapsAlone(h, item)
    ensures item.kind !in schema.itemKinds ==> Do(schema, h, Add(item)) == h
    ensures item.kind in schema.itemKinds ==>
              var after := Do(schema, h, Add(item));
              && Holds(after, item)
              && after.attributes == h.attributes
              && (forall e :: e in Rivals(h, item) ==> e !in after.children && e !in after.items)
              && OthersHeld(h, after, Rivals(h, item) + {item.element})
    ensures item.kind in schema.itemKinds && item.element !in h.children ==>
              var after := Do(schema, h, Add(item));
              if item.id.Some? && KeyOf(item) in h.ids
              then after.arrivals == Without(h.arrivals, h.ids[KeyOf(item)].element) + [item.element]
              else after.arrivals == h.arrivals + [item.element]
  {
    RivalIsFound(schema, h, item);
    if item.kind in schema.itemKinds {
      if item.id.Some? && KeyOf(item) in h.ids {
        var known := h.ids[KeyOf(item)];
        if known == item {
          KnownIsHeld(schema, h, item);
          hide Rivals, Agrees, OthersHeld, Holds;
        } else {
          ReplacedThenHeld(schema, h, known, item);
          assert {known.element, item.element} == Rivals(h, item) + {item.element};
          hide Rivals, Agrees, OthersHeld, Holds, Added;
        }
      } else {
        AttachedHolds(schema, h, item);
        assert {item.element} == Rivals(h, item) + {item.element};
        hide Rivals, Agrees, OthersHeld, Holds;
      }
    }
  }

  lemma KnownIsHeld(schema: Schema, h: Held, item: Item)
    requires Agrees(schema, h) && item.id.Some? && KeyOf(item) in h.ids && h.ids[KeyOf(item)] == item
    ensures Holds(h, item) && forall gone: set<Element> :: OthersHeld(h, h, gone)
  {
    hide NoRepeats, AttributesAreChildren, AttributesDiffer;
  }

  lemma ReplacedThenHeld(schema: Schema, h: Held, known: Item, item: Item)
    requires Agrees(schema, h) && WrapsAlone(h, item) && item.kind in schema.itemKinds
    requires item.id.Some? && KeyOf(item) in h.ids && h.ids[KeyOf(item)] == known && known != item
    ensures var after := Do(schema, h, Add(item));
            && Holds(after, item) && after.attributes == h.attributes
            && known.element !in after.children && known.element !in after.items
            && OthersHeld(h, after, {known.element, item.element})
    ensures item.element !in h.children ==>
              Do(schema, h, Add(item)).arrivals == Without(h.arrivals, known.element) + [item.element]
  {
    assert known.element in h.items && h.items[known.element] == known;
    assert known.element != item.element;
    DroppedHolds(schema, h, known);
    DroppedAgrees(schema, h, known);
    var less := Dropped(h, known);
    AttachedHolds(schema, less, item);
    OthersJoin(h, less, Attached(schema, less, item), {known.element}, {item.element});
    PutInHolds(schema.order, less, item.element);
    assert {known.element} + {item.element} == {known.element, item.element};
    hide Agrees, OthersHeld, WrapsAlone, Inserted, Without;
  }

  /** An item that is removed is held no more, and everything else is as before, in the order it had. */
  lemma RemovedIsGone(schema: Schema, h: Held, item: Item)
    requires Agrees(schema, h) && Proper(schema, h, Change.Remove(item))
    ensures item.element !in h.children ==> Do(schema, h, Change.Remove(item)) == h
    ensures item.element in h.children ==>
              var after := Do(schema, h, Change.Remove(item));
              && item.element !in after.children && item.element !in after.items
              && (item.id.Some? ==> KeyOf(item) !in after.ids)
              && after.attributes == h.attributes && after.arrivals == Without(h.arrivals, item.element)
              && OthersHeld(h, after, {item.element})
  {
    if item.element in h.children {
      DroppedHolds(schema, h, item);
    }
  }

  /** A value assigned is the child attribute, with its element among the children, and the value there was is a child
    * no more; clearing it leaves neither.  All items and all other child attributes are as before. */
  lemma AssignedIsSet(schema: Schema, h: Held, name: string, value: Option<Item>)
    requires Agrees(schema, h) && Proper(schema, h, Assign(name, value))
    ensures var after := Do(schema, h, Assign(name, value));
            && after.items == h.items && after.ids == h.ids
            && after.attributes - {name} == h.attributes - {name}
            && (value.None? ==> name !in after.attributes)
            && (value.Some? ==> name in after.attributes && after.attributes[name] == value.value)
            && (forall e :: e in after.children <==>
                              || (value.Some? && e == value.value.element)
                              || (e in h.children && !(name in h.attributes && h.attributes[name].element == e)))
  {
    AssignedUnfolds(schema, h, name, value);
    AttributeIsChild(schema, h, name);
    hide Agrees, Proper, Do;
    ClearedHolds(h, name);
    if value.Some? {
      PutInHolds(schema.order, Cleared(h, name), value.value.element);
      PutInIndexes(schema.order, Cleared(h, name), value.value.element);
    }
    hide Cleared, PutIn;
  }

  lemma AttributeIsChild(schema: Schema, h: Held, name: string)
    requires Agrees(schema, h)
    ensures name in h.attributes ==> h.attributes[name].element in h.children
  {
  }

  lemma PutInIndexes(order: Order, h: Held, e: Element)
    ensures var more := PutIn(order, h, e);
            more.items == h.items && more.ids == h.ids && more.attributes == h.attributes
  {
  }

  lemma AssignedUnfolds(schema: Schema, h: Held, name: string, value: Option<Item>)
    ensures var after, less := Do(schema, h, Assign(name, value)), Cleared(h, name);
            if name in h.attributes && value == Some(h.attributes[name]) then after == h
            else if value.None? then after == less
            else
              var put := PutIn(schema.order, less, value.value.element);
              after == put.(attributes := less.attributes[name := value.value])
  {
  }

  lemma ClearedHolds(h: Held, name: string)
    ensures var less := Cleared(h, name);
            && less.items == h.items && less.ids == h.ids
            && less.attributes == h.attributes - {name}
            && (forall e :: e in less.children <==>
                              e in h.children && !(name in h.attributes && h.attributes[name].element == e))
  {
  }

  // ------------------------------------------------------------------ reading a list from a document

  /** Whether an earlier element of the document was read as an item of the same class with the same id. */
  ghost predicate Repeated(document: seq<Element>, parsed: map<Element, Item>, i: nat)
    requires i < |document|
  {
    && document[i] in parsed && parsed[document[i]].id.Some?
    && exists j :: 0 <= j < i && document[j] in parsed && parsed[document[j]].id.Some?
                   && KeyOf(parsed[document[j]]) == KeyOf(parsed[document[i]])
  }

  /** The first `n` elements of the document less those that repeat an id. */
  ghost function Kept(document: seq<Element>, parsed: map<Element, Item>, n: nat): seq<Element>
    requires n <= |document|
  {
    if n == 0 then []
    else Kept(document, parsed, n - 1) + if Repeated(document, parsed, n - 1) then [] else [document[n - 1]]
  }

  /** An element is kept exactly when it repeats no earlier id. */
  lemma {:induction false} KeptAreFirsts(document: seq<Element>, parsed: map<Element, Item>, n: nat)
    requires NoRepeats(document) && n <= |document|
    ensures NoRepeats(Kept(document, parsed, n))
    ensures forall e :: e in Kept(document, parsed, n) ==> e in document[..n]
    ensures forall i :: 0 <= i < n ==> (document[i] in Kept(document, parsed, n) <==> !Repeated(document, parsed, i))
  {
    if n > 0 {
      KeptAreFirsts(document, parsed, n - 1);
      hide Repeated;
      assert document[n - 1] !in document[..n - 1];
    }
  }

  // ------------------------------------------------------------------ the list

  /** The indexes hold what was kept of the first `n` elements. */
  ghost predicate ReadSoFar(
    document: seq<Element>, parsed: map<Element, Item>, n: nat, items: map<Element, Item>, ids: map<Key, Item>)
    requires n <= |document|
  {
    && items == (map e | e in parsed && e in Kept(document, parsed, n) :: parsed[e])
    && IdsAreItems(items, ids) && ItemsHaveIds(items, ids)
    && forall j :: 0 <= j < n && document[j] in parsed && parsed[document[j]].id.Some? ==>
                     KeyOf(parsed[document[j]]) in ids
  }

  lemma KeptNone(document: seq<Element>, parsed: map<Element, Item>)
    ensures Kept(document, parsed, 0) == [] && ReadSoFar(document, parsed, 0, map[], map[])
  {
  }

  lemma IndexesWithOne(items: map<Element, Item>, ids: map<Key, Item>, child: Element, item: Item)
    requires IdsAreItems(items, ids) && ItemsHaveIds(items, ids)
    requires child !in items && item.element == child
    requires item.id.Some? ==> KeyOf(item) !in ids
    ensures var more := if item.id.Some? then ids[KeyOf(item) := item] else ids;
            IdsAreItems(items[child := item], more) && ItemsHaveIds(items[child := item], more)
  {
    IndexesWith(items, ids, item);
  }

  lemma RepeatedIsKnown(document: seq<Element>, parsed: map<Element, Item>, n: nat, items: map<Element, Item>,
      ids: map<Key, Item>)
    requires NoRepeats(document) && n < |document| && document[n] in parsed && parsed[document[n]].id.Some?
    requires ReadSoFar(document, parsed, n, items, ids)
    ensures Repeated(document, parsed, n) <==> KeyOf(parsed[document[n]]) in ids
  {
    KeptAreFirsts(document, parsed, n);
    hide Kept, ItemsHaveIds;
    var key := KeyOf(parsed[document[n]]);
    if key in ids {
      var e := ids[key].element;
      assert e in items && items[e] == ids[key];
      assert e in document[..n] && items[e] == parsed[e];
      var j :| 0 <= j < n && document[j] == e;
    }
  }

  /** Whether an item read has the class and id of an item held. */
  predicate IsKnown(child: Element, parsed: map<Element, Item>, ids: map<Key, Item>) {
    child in parsed && parsed[child].id.Some? && KeyOf(parsed[child]) in ids
  }

  function ItemsAfter(child: Element, parsed: map<Element, Item>, items: map<Element, Item>, ids: map<Key,
      Item>): map<Element, Item> {
    if child in parsed && !IsKnown(child, parsed, ids) then items[child := parsed[child]] else items
  }

  function IdsAfter(child: Element, parsed: map<Element, Item>, ids: map<Key, Item>): map<Key, Item> {
    if child in parsed && !IsKnown(child, parsed, ids) && parsed[child].id.Some?
        then ids[KeyOf(parsed[child]) := parsed[child]]
    else ids
  }

  lemma KeptNext(document: seq<Element>, parsed: map<Element, Item>, n: nat, items: map<Element, Item>,
      ids: map<Key, Item>)
    requires NoRepeats(document) && n < |document| && ReadSoFar(document, parsed, n, items, ids)
    ensures IsKnown(document[n], parsed, ids) ==> Kept(document, parsed, n + 1) == Kept(document, parsed, n)
    ensures !IsKnown(document[n], parsed, ids) ==>
        Kept(document, parsed, n + 1) == Kept(document, parsed, n) + [document[n]]
    ensures document[n] !in document[..n] && document[n] !in Kept(document, parsed, n) && document[n] !in items
  {
    if document[n] in parsed && parsed[document[n]].id.Some? {
      RepeatedIsKnown(document, parsed, n, items, ids);
    }
    KeptAreFirsts(document, parsed, n);
    assert document[n] !in document[..n];
  }

  /** Reading one more element keeps the indexes right, whether it repeats an id or not. */
  lemma ReadNext(document: seq<Element>, parsed: map<Element, Item>, n: nat, items: map<Element, Item>,
      ids: map<Key, Item>)
    requires NoRepeats(document) && n < |document|
    requires forall e :: e in parsed ==> parsed[e].element == e
    requires ReadSoFar(document, parsed, n, items, ids)
    ensures ReadSoFar(document, parsed, n + 1, ItemsAfter(document[n], parsed, items, ids),
        IdsAfter(document[n], parsed, ids))
  {
    var child := document[n];
    KeptNext(document, parsed, n, items, ids);
    if child in parsed && !IsKnown(child, parsed, ids) {
      IndexesWithOne(items, ids, child, parsed[child]);
    }
    hide Kept, Repeated, IdsAreItems, ItemsHaveIds, NoRepeats, IsKnown;
    assert forall j :: 0 <= j < n + 1 && document[j] in parsed && parsed[document[j]].id.Some? ==>
        KeyOf(parsed[document[j]]) in IdsAfter(child, parsed, ids);
  }

  lemma ReadAll(schema: Schema, h: Held, document: seq<Element>, parsed: map<Element, Item>)
    requires NoRepeats(document)
    requires ItemsAreChildren(schema, document, parsed)
    requires AttributesAreChildren(schema, document, parsed, h.attributes) && AttributesDiffer(h.attributes)
    requires h.children == Kept(document, parsed, |document|)
    requires ReadSoFar(document, parsed, |document|, h.items, h.ids)
    ensures Agrees(schema, h)
    ensures h.items == map e | e in parsed && e in h.children :: parsed[e]
  {
    KeptAreFirsts(document, parsed, |document|);
    assert document[..|document|] == document;
    AttributesAreKept(schema, document, parsed, h.attributes);
    hide Kept, Repeated, NoRepeats, IdsAreItems, ItemsHaveIds, AttributesDiffer;
    assert ItemsAreChildren(schema, h.children, h.items);
  }

  lemma AttributesAreKept(schema: Schema, document: seq<Element>, parsed: map<Element, Item>,
      attributes: map<string, Item>)
    requires NoRepeats(document) && AttributesAreChildren(schema, document, parsed, attributes)
    ensures forall n :: n in attributes ==> attributes[n].element in Kept(document, parsed, |document|)
  {
    KeptAreFirsts(document, parsed, |document|);
    hide Kept;
    forall n | n in attributes ensures attributes[n].element in Kept(document, parsed, |document|) {
      var i :| 0 <= i < |document| && document[i] == attributes[n].element;
      assert !Repeated(document, parsed, i);
    }
  }

  lemma {:induction false} WithoutAbsent(s: seq<Element>, e: Element)
    requires e !in s
    ensures Without(s, e) == s
  {
    if s != [] {
      WithoutAbsent(s[1..], e);
    }
  }

  lemma WithoutHead(e: Element, b: seq<Element>)
    requires e !in b
    ensures Without([e] + b, e) == b
  {
    assert ([e] + b)[0] == e && ([e] + b)[1..] == b;
    WithoutAbsent(b, e);
  }

  lemma WithoutOnly(a: seq<Element>, e: Element, b: seq<Element>)
    requires e !in a && e !in b
    ensures Without(a + ([e] + b), e) == a + b
  {
    WithoutAbsent(a, e);
    WithoutHead(e, b);
    WithoutJoins(a, [e] + b, e);
  }

  lemma RestAfter(document: seq<Element>, kept: seq<Element>, i: nat)
    requires NoRepeats(document) && i < |document| && document[i] !in kept
    ensures Without(kept + document[i..], document[i]) == kept + document[i + 1..]
    ensures kept + document[i..] == kept + [document[i]] + document[i + 1..]
  {
    assert document[i..] == [document[i]] + document[i + 1..];
    assert document[i] !in document[i + 1..];
    WithoutOnly(kept, document[i], document[i + 1..]);
  }

  lemma OwnElements(schema: Schema, children: seq<Element>, items: map<Element, Item>)
    requires ItemsAreChildren(schema, children, items)
    ensures forall e :: e in items ==> items[e].element == e
  {
  }

  /** Of the children only some items are gone. */
  ghost predicate OnlyItemsGone(before: Held, h: Held) {
    && (forall e :: e in h.items ==> e in before.items)
    && (forall e :: e in h.children ==> e in before.children && (e in before.items ==> e in h.items))
    && (forall e :: e in before.children && (e in before.items ==> e in h.items) ==> e in h.children)
  }

  lemma NoneGone(h: Held)
    ensures OnlyItemsGone(h, h)
  {
  }

  lemma OwnItem(schema: Schema, h: Held, e: Element)
    requires Agrees(schema, h) && e in h.items
    ensures h.items[e].element == e
  {
  }

  lemma OneMoreGone(schema: Schema, before: Held, h: Held, item: Item)
    requires OnlyItemsGone(before, h) && item.element in h.items
    ensures OnlyItemsGone(before, Dropped(h, item))
  {
    forall e | e in before.children && (e in before.items ==> e in h.items && e != item.element)
      ensures e in Dropped(h, item).children
    {
      assert e in h.children;
    }
  }

  lemma NoItemsLeft(schema: Schema, before: Held, h: Held)
    requires h.items == map[] && Agrees(schema, h) && OnlyItemsGone(before, h)
    ensures h.ids == map[]
    ensures forall e :: e in h.children <==> e in before.children && e !in before.items
  {
    hide NoRepeats, AttributesAreChildren, AttributesDiffer, ItemsAreChildren;
  }

  lemma ClearOne(schema: Schema, h: Held, item: Item)
    requires Agrees(schema, h) && item.element in h.items && h.items[item.element] == item
    ensures Agrees(schema, Dropped(h, item)) && Dropped(h, item).items == h.items - {item.element}
    ensures Complete(h) ==> Complete(Dropped(h, item))
    ensures InOrder(schema, h) ==> InOrder(schema, Dropped(h, item))
  {
    DroppedAgrees(schema, h, item);
    TakeOutKeeps(schema.order, h, item.element);
    if Complete(h) {
      DroppedComplete(schema, h, item);
    }
  }

  class XmlList {
    const schema: Schema
    var children: seq<Element>
    var items: map<Element, Item>
    var ids: map<Key, Item>
    var attributes: map<string, Item>
    ghost var arrivals: seq<Element>

    ghost function View(): Held
      reads this
    {
      Held(children, items, ids, attributes, arrivals)
    }

    constructor (schema: Schema)
      ensures this.schema == schema && View() == EMPTY
    {
      this.schema := schema;
      children, items, ids, attributes, arrivals := [], map[], map[], map[], [];
    }

    method InsertElement(e: Element)
      modifies this`children, this`arrivals
      ensures View() == PutIn(schema.order, old(View()), e)
    {
      if e in children {
        return;
      }
      var rank := schema.order.Rank(e);
      var position := 0;
      while position < |children| && schema.order.Rank(children[position]) <= rank
        invariant position <= |children|
        invariant position + Place(schema.order, children[position..], e) == Place(schema.order, children, e)
      {
        assert children[position..][1..] == children[position + 1..];
        position := position + 1;
      }
      children := children[..position] + [e] + children[position..];
      arrivals := arrivals + [e];
    }

    method RemoveElement(e: Element)
      modifies this`children, this`arrivals
      ensures View() == TakeOut(old(View()), e)
    {
      ghost var before := children;
      var i, rest := 0, [];
      while i < |children|
        invariant i <= |children|
        invariant Without(before, e) == rest + Without(children[i..], e)
        invariant children == before
      {
        assert children[i..][1..] == children[i + 1..];
        if children[i] != e {
          rest := rest + [children[i]];
        }
        i := i + 1;
      }
      children := rest;
      arrivals := Without(arrivals, e);
    }

    /** `done` is false when this is an error. */
    method Add(item: Item) returns (done: bool)
      modifies this`children, this`items, this`ids, this`arrivals
      ensures done == (item.kind in schema.itemKinds)
      ensures View() == Do(schema, old(View()), Change.Add(item))
    {
      if item.kind !in schema.itemKinds {
        return false;
      }
      if item.id.Some? && KeyOf(item) in ids {
        var held := ids[KeyOf(item)];
        if item == held {
          return true;
        }
        Drop(held);
      }
      InsertElement(item.element);
      if item.id.Some? {
        ids := ids[KeyOf(item) := item];
      }
      items := items[item.element := item];
      return true;
    }

    method Drop(item: Item)
      modifies this`children, this`items, this`ids, this`arrivals
      ensures View() == Dropped(old(View()), item)
    {
      RemoveElement(item.element);
      if item.id.Some? {
        ids := ids - {KeyOf(item)};
      }
      items := items - {item.element};
    }

    /** `done` is false when this is an error: the element is not a child, or an index does not hold the item. */
    method Remove(item: Item) returns (done: bool)
      modifies this`children, this`items, this`ids, this`arrivals
      ensures done <==>
                && item.element in old(children) && item.element in old(items)
                && (item.id.Some? ==> KeyOf(item) in old(ids))
      ensures View() == Do(schema, old(View()), Change.Remove(item))
    {
      if item.element !in children {
        return false;
      }
      RemoveElement(item.element);
      if item.id.Some? {
        if KeyOf(item) !in ids {
          return false;
        }
        ids := ids - {KeyOf(item)};
      }
      if item.element !in items {
        assert items - {item.element} == items;
        return false;
      }
      items := items - {item.element};
      return true;
    }

    /** All items go, and the child attributes stay. */
    method Clear()
      requires schema.Valid() && Agrees(schema, View())
      modifies this`children, this`items, this`ids, this`arrivals
      ensures Agrees(schema, View())
      ensures items == map[] && ids == map[]
      ensures forall e :: e in children <==> e in old(children) && e !in old(items)
      ensures Complete(old(View())) ==> Complete(View())
      ensures InOrder(schema, old(View())) ==> InOrder(schema, View())
    {
      hide Complete, InOrder, Dropped, Agrees, OnlyItemsGone;
      NoneGone(View());
      while items.Keys != {}
        invariant Agrees(schema, View())
        invariant Complete(old(View())) ==> Complete(View())
        invariant InOrder(schema, old(View())) ==> InOrder(schema, View())
        invariant OnlyItemsGone(old(View()), View())
        decreases |items.Keys|
      {
        var e :| e in items.Keys;
        var item := items[e];
        ghost var before := View();
        OwnItem(schema, before, e);
        ClearOne(schema, before, item);
        OneMoreGone(schema, old(View()), before, item);
        Drop(item);
      }
      assert items == map[];
      NoItemsLeft(schema, old(View()), View());
    }

    /** Set or clear a child attribute. */
    method Assign(name: string, value: Option<Item>)
      modifies this`children, this`attributes, this`arrivals
      ensures View() == Do(schema, old(View()), Change.Assign(name, value))
    {
      var held := if name in attributes then Some(attributes[name]) else None;
      if value == held {
        return;
      }
      if held.Some? {
        RemoveElement(held.value.element);
        attributes := attributes - {name};
      }
      if value.Some? {
        InsertElement(value.value.element);
        attributes := attributes[name := value.value];
      }
    }

    method ReadChild(child: Element, parsed: map<Element, Item>)
      modifies this`children, this`items, this`ids
      ensures children == if IsKnown(child, parsed, old(ids)) then Without(old(children), child) else old(children)
      ensures items == ItemsAfter(child, parsed, old(items), old(ids))
      ensures ids == IdsAfter(child, parsed, old(ids))
    {
      if child in parsed {
        var value := parsed[child];
        if value.id.Some? && KeyOf(value) in ids {
          children := Without(children, child);
        } else {
          if value.id.Some? {
            ids := ids[KeyOf(value) := value];
          }
          items := items[child := value];
        }
      }
    }

    method ReadChildren(document: seq<Element>, parsed: map<Element, Item>)
      requires NoRepeats(document)
      requires forall e :: e in parsed ==> parsed[e].element == e
      modifies this`children, this`items, this`ids
      ensures children == Kept(document, parsed, |document|)
      ensures ReadSoFar(document, parsed, |document|, items, ids)
    {
      hide *;
      children, items, ids := document, map[], map[];
      KeptNone(document, parsed);
      ghost var kept := [];
      assert document == kept + document[0..];
      for i := 0 to |document|
        invariant kept == Kept(document, parsed, i)
        invariant children == kept + document[i..]
        invariant ReadSoFar(document, parsed, i, items, ids)
      {
        KeptNext(document, parsed, i, items, ids);
        ReadNext(document, parsed, i, items, ids);
        RestAfter(document, kept, i);
        ghost var known := IsKnown(document[i], parsed, ids);
        ReadChild(document[i], parsed);
        assert children == (if known then kept else kept + [document[i]]) + document[i + 1..];
        kept := Kept(document, parsed, i + 1);
      }
      assert kept == kept + document[|document|..];
    }

    /** Read the items of a document whose child attributes were read before; `parsed` holds the items that its
      * elements could be read as. */
    method Parse(document: seq<Element>, parsed: map<Element, Item>)
      requires NoRepeats(document)
      requires ItemsAreChildren(schema, document, parsed)
      requires AttributesAreChildren(schema, document, parsed, attributes) && AttributesDiffer(attributes)
      modifies this`children, this`items, this`ids, this`arrivals
      ensures Agrees(schema, View())
      ensures children == Kept(document, parsed, |document|)
      ensures items == map e | e in parsed && e in children :: parsed[e]
    {
      OwnElements(schema, document, parsed);
      hide Agrees, NoRepeats, ItemsAreChildren, AttributesAreChildren, AttributesDiffer, Kept, ReadSoFar;
      ReadChildren(document, parsed);
      arrivals := children;
      ReadAll(schema, View(), document, parsed);
    }
  }
}
