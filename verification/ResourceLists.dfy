/** Finding elements in a document of nested resource lists: a breadth-first search that
    recognises lists it has seen by comparing them, and paths built from its results. */
module ResourceLists {
  import opened Wrappers

  datatype Kind = RootElement | ListElement | Entry | EntryRef | External

  /** The identity of an element. */
  type Element = nat

  /** An element: two elements compare equal when they have the same content. */
  datatype Info = Info(kind: Kind, id: Option<string>, content: nat, children: seq<Element>)

  datatype Document = Document(root: Element, info: map<Element, Info>, ghost parent: map<Element, Element>,
      ghost depth: map<Element, nat>)

  predicate Distinct(s: seq<Element>) {
    forall i, j :: 0 <= i < j < |s| ==> s[i] != s[j]
  }

  /** The elements form a tree: every one but the root is a child of exactly one list, once. */
  ghost predicate IsTree(d: Document) {
    && d.root in d.info
    && d.parent.Keys == d.info.Keys - {d.root} && d.depth.Keys == d.info.Keys
    && (forall n :: n in d.info ==> (d.info[n].kind == RootElement <==> n == d.root))
    && (forall n, c :: n in d.info && c in d.info[n].children ==> c in d.parent && d.parent[c] == n)
    && (forall c :: c in d.parent ==> d.parent[c] in d.info && d.depth[d.parent[c]] < d.depth[c])
    && (forall c :: c in d.parent ==> c in d.info[d.parent[c]].children)
    && (forall n :: n in d.info ==> Distinct(d.info[n].children))
    && (forall n :: n in d.info && d.info[n].children != [] ==> d.info[n].kind in {RootElement, ListElement})
  }

  /** What sets and dictionaries recognise an element by: its content if it has an id, as the
      id is then its hash, and otherwise its identity. */
  datatype Key = ByContent(content: nat) | ByIdentity(element: Element)

  function KeyOf(d: Document, n: Element): Key
    requires n in d.info
  {
    if d.info[n].id.Some? then ByContent(d.info[n].content) else ByIdentity(n)
  }

  /** The root has no id, and elements that compare equal have equally many children. */
  ghost predicate Valid(d: Document) {
    && IsTree(d)
    && d.info[d.root].id.None?
    && (forall m, n :: m in d.info && n in d.info && d.info[m].content == d.info[n].content ==>
          |d.info[m].children| == |d.info[n].children|)
  }

  // ---------------------------------------------------------------- the order of the search

  predicate Known(d: Document, some: seq<Element>) {
    forall n :: n in some ==> n in d.info
  }

  predicate IsUnseen(d: Document, n: Element, seen: set<Key>)
    requires n in d.info
  {
    d.info[n].kind == ListElement && KeyOf(d, n) !in seen
  }

  /** The lists among some elements that have not been seen. */
  function Unseen(d: Document, some: seq<Element>, seen: set<Key>): (r: seq<Element>)
    requires Known(d, some)
    ensures Known(d, r)
  {
    if some == [] then []
    else
      var last := |some| - 1;
      var before := Unseen(d, some[..last], seen);
      if IsUnseen(d, some[last], seen + Keys(d, before)) then before + [some[last]] else before
  }

  function Keys(d: Document, some: seq<Element>): set<Key>
    requires Known(d, some)
  {
    set n | n in some :: KeyOf(d, n)
  }

  lemma KeysOneMore(d: Document, some: seq<Element>, n: Element)
    requires Known(d, some) && n in d.info
    ensures Known(d, some + [n]) && Keys(d, some + [n]) == Keys(d, some) + {KeyOf(d, n)}
  {
    assert forall m :: m in some + [n] <==> m in some || m == n;
  }

  lemma {:induction false} UnseenAreNew(d: Document, some: seq<Element>, seen: set<Key>)
    requires Known(d, some)
    ensures forall n :: n in Unseen(d, some, seen) ==>
              n in some && d.info[n].kind == ListElement && KeyOf(d, n) !in seen
    ensures forall n :: n in some && d.info[n].kind == ListElement ==>
              KeyOf(d, n) in seen + Keys(d, Unseen(d, some, seen))
    ensures DistinctKeys(d, Unseen(d, some, seen))
  {
    if some != [] {
      var last := |some| - 1;
      UnseenAreNew(d, some[..last], seen);
      var before := Unseen(d, some[..last], seen);
      KeysOneMore(d, before, some[last]);
      assert some == some[..last] + [some[last]];
    }
  }

  ghost predicate DistinctKeys(d: Document, some: seq<Element>)
    requires Known(d, some)
  {
    forall i, j :: 0 <= i < j < |some| ==> KeyOf(d, some[i]) != KeyOf(d, some[j])
  }

  function AllKeys(d: Document): set<Key> {
    set n | n in d.info :: KeyOf(d, n)
  }

  lemma SeenGrows(d: Document, some: seq<Element>, seen: set<Key>)
    requires Known(d, some)
    ensures var more := Unseen(d, some, seen);
            more == [] || AllKeys(d) - (seen + Keys(d, more)) < AllKeys(d) - seen
    ensures AllKeys(d) - (seen + Keys(d, Unseen(d, some, seen))) <= AllKeys(d) - seen
  {
    UnseenAreNew(d, some, seen);
    var more := Unseen(d, some, seen);
    if more != [] {
      assert more[0] in more;
      assert KeyOf(d, more[0]) in AllKeys(d) - seen;
      assert KeyOf(d, more[0]) in Keys(d, more);
    }
  }

  lemma ChildrenKnown(d: Document, n: Element)
    requires IsTree(d) && n in d.info
    ensures Known(d, d.info[n].children)
  {
    assert forall c :: c in d.info[n].children ==> c in d.parent.Keys;
  }

  /** The lists in the order in which they are expanded. */
  function Expanded(d: Document, queue: seq<Element>, seen: set<Key>): (r: seq<Element>)
    requires IsTree(d) && Known(d, queue)
    ensures Known(d, r)
    decreases AllKeys(d) - seen, |queue|
  {
    if queue == [] then []
    else
      var children := d.info[queue[0]].children;
      ChildrenKnown(d, queue[0]);
      var more := Unseen(d, children, seen);
      SeenGrows(d, children, seen);
      [queue[0]] + Expanded(d, queue[1..] + more, seen + Keys(d, more))
  }

  /** The lists a search expands if it does not stop. */
  function SearchOrder(d: Document): (r: seq<Element>)
    requires IsTree(d)
    ensures Known(d, r)
  {
    Expanded(d, [d.root], {KeyOf(d, d.root)})
  }

  /** The first of some lists that an element is a child of. */
  function FirstWith(d: Document, lists: seq<Element>, element: Element): Option<Element>
    requires Known(d, lists)
  {
    if lists == [] then None
    else if element in d.info[lists[0]].children then Some(lists[0]) else FirstWith(d, lists[1..], element)
  }

  lemma {:induction false} FirstWithSkips(d: Document, done: seq<Element>, rest: seq<Element>, element: Element)
    requires Known(d, done + rest) && forall n :: n in done ==> n in d.info && element !in d.info[n].children
    ensures Known(d, rest) && FirstWith(d, done + rest, element) == FirstWith(d, rest, element)
  {
    assert forall n :: n in rest ==> n in done + rest;
    if done == [] {
      assert done + rest == rest;
    } else {
      assert (done + rest)[1..] == done[1..] + rest;
      FirstWithSkips(d, done[1..], rest, element);
    }
  }

  // ---------------------------------------------------------------- finding the parent

  /** Looks through the children of a list and queues the lists not seen so far. */
  method Scan(d: Document, children: seq<Element>, element: Element, queue: seq<Element>, seen: set<Key>)
    returns (found: bool, notexpanded: seq<Element>, visited: set<Key>)
    requires Known(d, children)
    ensures found <==> element in children
    ensures !found ==>
        notexpanded == queue + Unseen(d, children, seen) && visited == seen + Keys(d, Unseen(d, children, seen))
  {
    notexpanded, visited := queue, seen;
    for i := 0 to |children|
      invariant element !in children[..i]
      invariant notexpanded == queue + Unseen(d, children[..i], seen)
      invariant visited == seen + Keys(d, Unseen(d, children[..i], seen))
    {
      var child := children[i];
      var before := Unseen(d, children[..i], seen);
      assert children[..i + 1][..i] == children[..i] && children[..i + 1] == children[..i] + [child];
      if child == element {
        return true, notexpanded, visited;
      } else if d.info[child].kind == ListElement && KeyOf(d, child) !in visited {
        KeysOneMore(d, before, child);
        notexpanded := notexpanded + [child];
        visited := visited + {KeyOf(d, child)};
      }
    }
    assert children[..|children|] == children;
    return false, notexpanded, visited;
  }

  lemma OneStep(d: Document, queue: seq<Element>, seen: set<Key>, element: Element)
    requires IsTree(d) && Known(d, queue) && queue != []
    ensures Known(d, d.info[queue[0]].children)
    ensures var more := Unseen(d, d.info[queue[0]].children, seen);
            && Expanded(d, queue, seen) == [queue[0]] + Expanded(d, queue[1..] + more, seen + Keys(d, more))
            && (more == [] || AllKeys(d) - (seen + Keys(d, more)) < AllKeys(d) - seen)
            && AllKeys(d) - (seen + Keys(d, more)) <= AllKeys(d) - seen
    ensures element in d.info[queue[0]].children ==> FirstWith(d, Expanded(d, queue, seen), element) == Some(queue[0])
  {
    ChildrenKnown(d, queue[0]);
    SeenGrows(d, d.info[queue[0]].children, seen);
    hide Unseen, Keys, AllKeys, IsTree;
  }

  lemma NotAmong(d: Document, done: seq<Element>, element: Element)
    requires Known(d, done) && forall n :: n in done ==> element !in d.info[n].children
    ensures FirstWith(d, done, element) == None
  {
    assert done + [] == done;
    FirstWithSkips(d, done, [], element);
  }

  /** The list an element is directly in, found breadth first; nothing if the search does not
      come across it. */
  method FindParent(d: Document, element: Element) returns (r: Option<Element>)
    requires IsTree(d) && element != d.root
    ensures r == FirstWith(d, SearchOrder(d), element)
  {
    var notexpanded := [d.root];
    var visited := {KeyOf(d, d.root)};
    ghost var done: seq<Element> := [];
    hide IsTree, Unseen, Keys, AllKeys, FirstWith;
    assert [] + SearchOrder(d) == SearchOrder(d);
    hide Expanded;
    while notexpanded != []
      invariant Known(d, notexpanded)
      invariant forall n :: n in done ==> n in d.info && element !in d.info[n].children
      invariant SearchOrder(d) == done + Expanded(d, notexpanded, visited)
      decreases AllKeys(d) - visited, |notexpanded|
    {
      var list := notexpanded[0];
      ghost var order := Expanded(d, notexpanded, visited);
      OneStep(d, notexpanded, visited, element);
      var found;
      found, notexpanded, visited := Scan(d, d.info[list].children, element, notexpanded[1..], visited);
      if found {
        FirstWithSkips(d, done, order, element);
        return Some(list);
      }
      assert done + order == done + [list] + Expanded(d, notexpanded, visited);
      done := done + [list];
    }
    assert Expanded(d, [], visited) == [] by { NoneExpanded(d, visited); }
    assert done + [] == done;
    NotAmong(d, done, element);
    return None;
  }

  lemma NoneExpanded(d: Document, seen: set<Key>)
    requires IsTree(d)
    ensures Expanded(d, [], seen) == []
  {
  }

  // ---------------------------------------------------------------- which elements are found

  /** What expanding a queue amounts to: everything queued and otherwise only unseen lists,
      none twice, and nothing in them that is a list is left unseen. */
  ghost predicate Explores(d: Document, queue: seq<Element>, seen: set<Key>, r: seq<Element>)
    requires Known(d, r)
  {
    && (forall n :: n in queue ==> n in r)
    && (forall n :: n in r ==> n in queue || (d.info[n].kind == ListElement && KeyOf(d, n) !in seen))
    && DistinctKeys(d, r)
    && (forall l, c :: l in r && c in d.info[l].children && c in d.info && d.info[c].kind == ListElement ==>
        KeyOf(d, c) in seen + Keys(d, r))
  }

  lemma QueueStaysDistinct(d: Document, queue: seq<Element>, more: seq<Element>, seen: set<Key>)
    requires Known(d, queue) && queue != [] && Known(d, more)
    requires DistinctKeys(d, queue) && Keys(d, queue) <= seen && DistinctKeys(d, more)
    requires forall n :: n in more ==> KeyOf(d, n) !in seen
    ensures Known(d, queue[1..] + more) && DistinctKeys(d, queue[1..] + more)
    ensures Keys(d, queue[1..] + more) <= seen + Keys(d, more)
  {
    var rest := queue[1..];
    var queue' := rest + more;
    forall i, j | 0 <= i < j < |queue'| ensures KeyOf(d, queue'[i]) != KeyOf(d, queue'[j]) {
      if i < |rest| {
        assert queue'[i] == queue[i + 1] && queue'[i] in queue && KeyOf(d, queue'[i]) in Keys(d, queue);
        if j < |rest| {
          assert queue'[j] == queue[j + 1];
        } else {
          assert queue'[j] == more[j - |rest|] && queue'[j] in more;
        }
      } else {
        assert queue'[i] == more[i - |rest|] && queue'[j] == more[j - |rest|];
      }
    }
    forall n | n in queue' ensures KeyOf(d, n) in seen + Keys(d, more) {
      assert n in queue || n in more;
      if n in queue {
        assert KeyOf(d, n) in Keys(d, queue);
      }
    }
  }

  lemma HeadStaysDistinct(d: Document, queue: seq<Element>, more: seq<Element>, seen: set<Key>, r: seq<Element>)
    requires Known(d, queue) && queue != [] && Known(d, more) && Known(d, r)
    requires DistinctKeys(d, queue) && Keys(d, queue) <= seen && DistinctKeys(d, r)
    requires forall n :: n in more ==> KeyOf(d, n) !in seen
    requires forall n :: n in r ==> n in queue[1..] + more || KeyOf(d, n) !in seen + Keys(d, more)
    ensures DistinctKeys(d, [queue[0]] + r)
  {
    var all := [queue[0]] + r;
    assert queue[0] in queue && KeyOf(d, queue[0]) in seen;
    forall j | 0 < j < |all| ensures KeyOf(d, all[0]) != KeyOf(d, all[j]) {
      assert all[j] == r[j - 1] && r[j - 1] in r;
      if all[j] in queue[1..] {
        var k :| 0 <= k < |queue[1..]| && queue[1..][k] == all[j];
        assert queue[k + 1] == all[j];
      }
    }
    forall i, j | 0 < i < j < |all| ensures KeyOf(d, all[i]) != KeyOf(d, all[j]) {
      assert all[i] == r[i - 1] && all[j] == r[j - 1];
    }
  }

  lemma StepExplores(d: Document, queue: seq<Element>, more: seq<Element>, seen: set<Key>, r: seq<Element>)
    requires Known(d, queue) && queue != [] && Known(d, more) && Known(d, r)
    requires DistinctKeys(d, queue) && Keys(d, queue) <= seen
    requires forall n :: n in more ==> d.info[n].kind == ListElement && KeyOf(d, n) !in seen
    requires forall c :: c in d.info[queue[0]].children && c in d.info && d.info[c].kind == ListElement ==>
        KeyOf(d, c) in seen + Keys(d, more)
    requires Explores(d, queue[1..] + more, seen + Keys(d, more), r)
    ensures Explores(d, queue, seen, [queue[0]] + r)
  {
    HeadStaysDistinct(d, queue, more, seen, r);
    hide DistinctKeys;
    var queue' := queue[1..] + more;
    var all := [queue[0]] + r;
    assert forall n :: n in queue ==> n == queue[0] || n in queue';
    assert forall n :: n in all <==> n == queue[0] || n in r;
    assert Keys(d, more) <= Keys(d, r) && Keys(d, r) <= Keys(d, all) by {
      assert forall n :: n in more ==> n in queue';
    }
  }

  lemma {:induction false} QueueIsExpanded(d: Document, queue: seq<Element>, seen: set<Key>)
    requires IsTree(d) && Known(d, queue) && DistinctKeys(d, queue) && Keys(d, queue) <= seen
    ensures Explores(d, queue, seen, Expanded(d, queue, seen))
    decreases AllKeys(d) - seen, |queue|
  {
    if queue == [] {
      assert Expanded(d, queue, seen) == [];
    } else {
      var children := d.info[queue[0]].children;
      OneStep(d, queue, seen, d.root);
      UnseenAreNew(d, children, seen);
      var more := Unseen(d, children, seen);
      hide IsTree, Unseen, Expanded, AllKeys, Explores;
      QueueStaysDistinct(d, queue, more, seen);
      QueueIsExpanded(d, queue[1..] + more, seen + Keys(d, more));
      StepExplores(d, queue, more, seen, Expanded(d, queue[1..] + more, seen + Keys(d, more)));
    }
  }

  /** Two lists with elements that the search takes for one: they have the same name and
      compare equal. */
  ghost predicate Twins(d: Document, m: Element, n: Element) {
    && m in d.info && n in d.info && m != n
    && d.info[m].kind == ListElement && d.info[n].kind == ListElement
    && KeyOf(d, m) == KeyOf(d, n) && d.info[m].children != []
  }

  ghost predicate NoTwins(d: Document) {
    forall m, n :: !Twins(d, m, n)
  }

  lemma SearchOrderFacts(d: Document)
    requires Valid(d)
    ensures var r := SearchOrder(d);
            && d.root in r
            && (forall n :: n in r ==> n == d.root || d.info[n].kind == ListElement)
            && DistinctKeys(d, r)
            && (forall l, c :: l in r && c in d.info[l].children && c in d.info && d.info[c].kind == ListElement ==>
                  KeyOf(d, c) in Keys(d, r))
  {
    assert d.root in [d.root];
    assert Keys(d, [d.root]) == {KeyOf(d, d.root)};
    QueueIsExpanded(d, [d.root], {KeyOf(d, d.root)});
  }

  lemma {:induction false} ListIsExpanded(d: Document, n: Element)
    requires Valid(d) && NoTwins(d) && n in d.info && d.info[n].children != []
    ensures n in SearchOrder(d)
    decreases d.depth[n]
  {
    SearchOrderFacts(d);
    if n != d.root {
      assert n in d.parent.Keys;
      ListIsExpanded(d, d.parent[n]);
      hide SearchOrder;
      assert d.info[n].kind == ListElement;
      var m :| m in SearchOrder(d) && KeyOf(d, m) == KeyOf(d, n);
      assert m != n ==> Twins(d, n, m);
    }
  }

  lemma {:induction false} FirstWithMeans(d: Document, lists: seq<Element>, element: Element)
    requires Known(d, lists)
    ensures FirstWith(d, lists, element).Some? ==>
        FirstWith(d, lists, element).value in lists && element in d.info[FirstWith(d, lists, element).value].children
    ensures FirstWith(d, lists, element).None? ==> forall l :: l in lists ==> element !in d.info[l].children
  {
    if lists != [] {
      FirstWithMeans(d, lists[1..], element);
      assert forall l :: l in lists ==> l == lists[0] || l in lists[1..];
    }
  }

  /** The search gives nothing for what is not in the document, and for an element either the
      list it is in or nothing. */
  lemma FoundIsParent(d: Document, element: Element)
    requires Valid(d)
    ensures var r := FirstWith(d, SearchOrder(d), element);
            (element !in d.parent ==> r == None) && (element in d.parent ==> r == None || r == Some(d.parent[element]))
  {
    FirstWithMeans(d, SearchOrder(d), element);
  }

  lemma OnlyOneOf(d: Document, some: seq<Element>, m: Element, n: Element)
    requires Known(d, some) && DistinctKeys(d, some) && m in d.info && n in d.info && KeyOf(d, m) == KeyOf(d, n)
        && m != n
    ensures m !in some || n !in some
  {
  }

  lemma TwinsHide(d: Document, m: Element, n: Element) returns (e: Element)
    requires Valid(d) && Twins(d, m, n)
    ensures e in d.parent && FirstWith(d, SearchOrder(d), e) == None
  {
    SearchOrderFacts(d);
    hide SearchOrder, FirstWith;
    assert d.info[m].content == d.info[n].content;
    var lost := if m in SearchOrder(d) then n else m;
    OnlyOneOf(d, SearchOrder(d), m, n);
    e := d.info[lost].children[0];
    assert e in d.info[lost].children;
    FirstWithMeans(d, SearchOrder(d), e);
  }

  /** The search finds the list of every element if and only if no two named lists that have
      elements compare equal. */
  lemma EveryParentIsFound(d: Document)
    requires Valid(d)
    ensures (forall e :: e in d.parent ==> FirstWith(d, SearchOrder(d), e) == Some(d.parent[e])) <==> NoTwins(d)
  {
    if NoTwins(d) {
      forall e | e in d.parent ensures FirstWith(d, SearchOrder(d), e) == Some(d.parent[e]) {
        ListIsExpanded(d, d.parent[e]);
        FoundIsParent(d, e);
        FirstWithMeans(d, SearchOrder(d), e);
      }
    } else {
      hide SearchOrder, FirstWith, Valid;
      var m, n :| Twins(d, m, n);
      var e := TwinsHide(d, m, n);
    }
  }

  /** How many lists an element is inside of. */
  ghost function Level(d: Document, n: Element): nat
    requires IsTree(d) && n in d.info
    decreases d.depth[n]
  {
    if n == d.root then 0
    else
      assert n in d.parent.Keys;
      1 + Level(d, d.parent[n])
  }

  /** No element is less deep than one before it. */
  ghost predicate Descends(d: Document, some: seq<Element>)
    requires IsTree(d) && Known(d, some)
  {
    forall i, j :: 0 <= i < j < |some| ==> Level(d, some[i]) <= Level(d, some[j])
  }

  /** Nor deeper than the first by more than one, as in the queue of a breadth-first search. */
  ghost predicate Spans(d: Document, some: seq<Element>)
    requires IsTree(d) && Known(d, some)
  {
    Descends(d, some) && forall i :: 0 <= i < |some| ==> Level(d, some[i]) <= Level(d, some[0]) + 1
  }

  lemma ChildLevel(d: Document, n: Element, c: Element)
    requires IsTree(d) && n in d.info && c in d.info && c in d.info[n].children
    ensures Level(d, c) == Level(d, n) + 1
  {
    assert c in d.parent.Keys;
  }

  lemma QueueSpans(d: Document, queue: seq<Element>, more: seq<Element>)
    requires IsTree(d) && Known(d, queue) && Known(d, more) && queue != [] && Spans(d, queue)
    requires forall c :: c in more ==> c in d.info[queue[0]].children
    ensures Known(d, queue[1..] + more) && Spans(d, queue[1..] + more)
    ensures forall i :: 0 <= i < |queue[1..] + more| ==> Level(d, queue[0]) <= Level(d, (queue[1..] + more)[i])
  {
    var all := queue[1..] + more;
    forall i | 0 <= i < |more| ensures Level(d, more[i]) == Level(d, queue[0]) + 1 {
      assert more[i] in more;
      ChildLevel(d, queue[0], more[i]);
    }
    assert forall i :: 0 <= i < |queue| - 1 ==> all[i] == queue[i + 1];
    assert forall i :: |queue| - 1 <= i < |all| ==> all[i] == more[i - (|queue| - 1)];
    hide Level, IsTree;
  }

  lemma {:induction false} ExpandedDescends(d: Document, queue: seq<Element>, seen: set<Key>)
    requires IsTree(d) && Known(d, queue) && Spans(d, queue)
    ensures var r := Expanded(d, queue, seen);
            && Descends(d, r)
            && (queue == [] ==> r == [])
            && (queue != [] ==> r != [] && r[0] == queue[0])
    decreases AllKeys(d) - seen, |queue|
  {
    if queue == [] {
    } else {
      var children := d.info[queue[0]].children;
      OneStep(d, queue, seen, d.root);
      UnseenAreNew(d, children, seen);
      var more := Unseen(d, children, seen);
      QueueSpans(d, queue, more);
      hide IsTree, Unseen, Expanded, AllKeys, Spans, Level;
      ExpandedDescends(d, queue[1..] + more, seen + Keys(d, more));
      FirstDescends(d, queue[0], queue[1..] + more, Expanded(d, queue[1..] + more, seen + Keys(d, more)));
    }
  }

  lemma FirstDescends(d: Document, first: Element, queue: seq<Element>, rest: seq<Element>)
    requires IsTree(d) && first in d.info && Known(d, queue) && Known(d, rest) && Descends(d, rest)
    requires queue == [] ==> rest == []
    requires queue != [] ==> rest != [] && rest[0] == queue[0] && Level(d, first) <= Level(d, queue[0])
    ensures Descends(d, [first] + rest)
  {
    hide Level, IsTree;
    forall j | 0 <= j < |rest| ensures Level(d, first) <= Level(d, rest[j]) {
      assert Level(d, rest[0]) <= Level(d, rest[j]);
    }
  }

  /** The search is breadth-first: it looks into no list before all those seen that are less deep. */
  lemma SearchIsBreadthFirst(d: Document)
    requires Valid(d)
    ensures SearchOrder(d) != [] && SearchOrder(d)[0] == d.root
    ensures forall i, j :: 0 <= i < j < |SearchOrder(d)| ==> Level(d, SearchOrder(d)[i]) <= Level(d, SearchOrder(d)[j])
  {
    ExpandedDescends(d, [d.root], {KeyOf(d, d.root)});
    hide Expanded;
  }

  // ---------------------------------------------------------------- paths

  /** A step of a path: to the child of a kind with an id, or to the child of a kind at a
      position counted from one. */
  datatype Step = Named(kind: Kind, id: string) | Position(kind: Kind, index: nat)

  function ListsOf(d: Document, some: seq<Element>): (r: seq<Element>)
    requires Known(d, some)
    ensures Known(d, r)
  {
    if some == [] then []
    else
      ListsOf(d, some[..|some| - 1])
      + if d.info[some[|some| - 1]].kind == ListElement then [some[|some| - 1]] else []
  }

  /** The position of the first of some elements that compares equal to an element. */
  function IndexOf(d: Document, some: seq<Element>, n: Element): nat
    requires Known(d, some) && n in d.info
  {
    if some == [] || d.info[some[0]].content == d.info[n].content then 0 else 1 + IndexOf(d, some[1..], n)
  }

  function StepOf(d: Document, parent: Element, n: Element): Step
    requires n in d.info && parent in d.info && Known(d, d.info[parent].children)
    requires d.info[n].id.Some? || d.info[n].kind == ListElement
  {
    if d.info[n].id.Some? then Named(d.info[n].kind, d.info[n].id.value)
    else Position(ListElement, IndexOf(d, ListsOf(d, d.info[parent].children), n) + 1)
  }

  /** Lists that compare equal have the same name. */
  ghost predicate SameNames(d: Document) {
    forall m, n ::
      m in d.info && n in d.info && d.info[m].kind == d.info[n].kind == ListElement
      && d.info[m].content == d.info[n].content
      ==> d.info[m].id == d.info[n].id
  }

  /** Ids are unique among the children of a kind, only lists and the root go without, and lists that compare equal have
      the same. */
  ghost predicate ValidIds(d: Document)
    requires IsTree(d)
  {
    && (forall n :: n in d.parent ==> n in d.info && (d.info[n].id.Some? || d.info[n].kind == ListElement))
    && (forall m, n ::
          m in d.parent && n in d.parent && m in d.info && n in d.info && m != n
          && d.parent[m] == d.parent[n] && d.info[m].kind == d.info[n].kind
          ==> d.info[m].id != d.info[n].id || d.info[m].id.None?)
    && SameNames(d)
  }

  /** Two lists without names that compare equal and are children of one list. */
  ghost predicate EqualSiblings(d: Document, m: Element, n: Element) {
    && m in d.parent && n in d.parent && m in d.info && n in d.info && m != n && d.parent[m] == d.parent[n]
    && d.info[m].kind == d.info[n].kind == ListElement && d.info[m].id.None? && d.info[n].id.None?
    && d.info[m].content == d.info[n].content
  }

  ghost predicate NoEqualSiblings(d: Document) {
    forall m, n :: !EqualSiblings(d, m, n)
  }

  ghost function PathTo(d: Document, n: Element): seq<Step>
    requires IsTree(d) && ValidIds(d) && n in d.info
    decreases d.depth[n]
  {
    if n == d.root then []
    else
      assert n in d.parent.Keys;
      ChildrenKnown(d, d.parent[n]);
      PathTo(d, d.parent[n]) + [StepOf(d, d.parent[n], n)]
  }

  /** The children that a step selects. */
  function Select(d: Document, n: Element, step: Step): set<Element>
    requires n in d.info && Known(d, d.info[n].children)
  {
    match step
    case Named(kind, id) => set c | c in d.info[n].children && d.info[c].kind == kind && d.info[c].id == Some(id)
    case Position(kind, index) =>
      var lists := ListsOf(d, d.info[n].children);
      if kind == ListElement && 1 <= index <= |lists| then {lists[index - 1]} else {}
  }

  /** The elements that a path leads to from the root. */
  ghost function Resolve(d: Document, path: seq<Step>): (r: set<Element>)
    requires IsTree(d)
    ensures forall n :: n in r ==> n in d.info
  {
    if path == [] then {d.root}
    else
      var last := |path| - 1;
      set n, c | n in Resolve(d, path[..last]) && n in d.info && Known(d, d.info[n].children)
          && c in Select(d, n, path[last]) && c in d.info :: c
  }

  lemma {:induction false} ListsOfMeans(d: Document, some: seq<Element>)
    requires Known(d, some)
    ensures forall n :: n in ListsOf(d, some) <==> n in some && d.info[n].kind == ListElement
  {
    if some != [] {
      ListsOfMeans(d, some[..|some| - 1]);
      assert some == some[..|some| - 1] + [some[|some| - 1]];
    }
  }

  lemma {:induction false} IndexOfMeans(d: Document, some: seq<Element>, n: Element)
    requires Known(d, some) && n in some
    ensures IndexOf(d, some, n) < |some| && d.info[some[IndexOf(d, some, n)]].content == d.info[n].content
    ensures forall i :: 0 <= i < IndexOf(d, some, n) ==> d.info[some[i]].content != d.info[n].content
  {
    if some[0] != n {
      IndexOfMeans(d, some[1..], n);
    }
  }

  lemma StepSelects(d: Document, n: Element)
    requires IsTree(d) && ValidIds(d) && NoEqualSiblings(d) && n in d.parent
    ensures n in d.info && d.parent[n] in d.info && Known(d, d.info[d.parent[n]].children)
    ensures Select(d, d.parent[n], StepOf(d, d.parent[n], n)) == {n}
  {
    var p := d.parent[n];
    assert n in d.parent.Keys;
    ChildrenKnown(d, p);
    var children := d.info[p].children;
    if d.info[n].id.Some? {
      forall c | c in Select(d, p, StepOf(d, p, n)) ensures c == n {
        assert c in d.parent && d.parent[c] == p;
      }
    } else {
      FirstEqualIsSame(d, n);
    }
  }

  lemma FirstEqualIsSame(d: Document, n: Element)
    requires IsTree(d) && SameNames(d) && NoEqualSiblings(d) && n in d.parent && n in d.info
    requires d.parent[n] in d.info && Known(d, d.info[d.parent[n]].children)
    requires d.info[n].kind == ListElement && d.info[n].id.None?
    ensures var lists := ListsOf(d, d.info[d.parent[n]].children);
            IndexOf(d, lists, n) < |lists| && lists[IndexOf(d, lists, n)] == n
  {
    var p := d.parent[n];
    var lists := ListsOf(d, d.info[p].children);
    ListsOfMeans(d, d.info[p].children);
    assert n in d.info[p].children;
    IndexOfMeans(d, lists, n);
    var m := lists[IndexOf(d, lists, n)];
    assert m in lists;
    assert m in d.parent && d.parent[m] == p;
    assert !EqualSiblings(d, m, n);
  }

  lemma {:induction false} ListsOfJoins(d: Document, a: seq<Element>, b: seq<Element>)
    requires Known(d, a) && Known(d, b)
    ensures Known(d, a + b) && ListsOf(d, a + b) == ListsOf(d, a) + ListsOf(d, b)
  {
    if b == [] {
      assert a + b == a;
    } else {
      var most, last := b[..|b| - 1], b[|b| - 1];
      ListsOfJoins(d, a, most);
      assert (a + b)[..|a + b| - 1] == a + most && (a + b)[|a + b| - 1] == last;
    }
  }

  /** Among the lists of some elements, a list comes after those before it. */
  lemma ListsBefore(d: Document, some: seq<Element>, i: nat)
    requires Known(d, some) && i < |some| && d.info[some[i]].kind == ListElement
    ensures Known(d, some[..i])
    ensures var k := |ListsOf(d, some[..i])|;
            k < |ListsOf(d, some)| && ListsOf(d, some)[..k] == ListsOf(d, some[..i]) && ListsOf(d, some)[k] == some[i]
  {
    assert some == some[..i] + some[i..] && some[..i + 1] == some[..i] + [some[i]];
    assert ListsOf(d, some[..i + 1]) == ListsOf(d, some[..i]) + [some[i]] by {
      assert some[..i + 1][..i] == some[..i];
    }
    hide ListsOf;
    ListsOfJoins(d, some[..i + 1], some[i + 1..]);
    assert some == some[..i + 1] + some[i + 1..];
  }

  /** The step to a list without a name is its position among the lists of its list, the first being at 1. */
  lemma PositionCounts(d: Document, n: Element, i: nat)
    requires IsTree(d) && ValidIds(d) && NoEqualSiblings(d) && n in d.parent
    requires n in d.info && d.parent[n] in d.info && Known(d, d.info[d.parent[n]].children)
    requires d.info[n].id.None? && i < |d.info[d.parent[n]].children| && d.info[d.parent[n]].children[i] == n
    ensures var before := d.info[d.parent[n]].children[..i];
            && Known(d, before)
            && StepOf(d, d.parent[n], n) == Position(ListElement, |ListsOf(d, before)| + 1)
  {
    var children := d.info[d.parent[n]].children;
    var lists := ListsOf(d, children);
    assert d.info[n].kind == ListElement;
    FirstEqualIsSame(d, n);
    ListsBefore(d, children, i);
    assert Distinct(children);
    NotBefore(d, children, i);
    IndexCounts(d, lists, n, |ListsOf(d, children[..i])|);
    hide IsTree, ValidIds, NoEqualSiblings, ListsOf, IndexOf, Distinct;
  }

  lemma IndexCounts(d: Document, lists: seq<Element>, n: Element, k: nat)
    requires Known(d, lists) && n in d.info && k < |lists| && lists[k] == n && n !in lists[..k]
    requires IndexOf(d, lists, n) < |lists| && lists[IndexOf(d, lists, n)] == n
    ensures IndexOf(d, lists, n) == k
  {
    IndexOfMeans(d, lists, n);
    assert forall j :: 0 <= j < k ==> lists[j] == lists[..k][j];
  }

  lemma NotBefore(d: Document, some: seq<Element>, i: nat)
    requires Known(d, some) && i < |some| && Distinct(some)
    ensures Known(d, some[..i]) && some[i] !in ListsOf(d, some[..i])
  {
    ListsOfMeans(d, some[..i]);
  }

  /** The path made for an element leads to that element and nothing else. */
  lemma {:induction false} PathResolves(d: Document, n: Element)
    requires IsTree(d) && ValidIds(d) && NoEqualSiblings(d) && n in d.info
    ensures Resolve(d, PathTo(d, n)) == {n}
    decreases d.depth[n]
  {
    if n != d.root {
      assert n in d.parent.Keys;
      StepSelects(d, n);
      PathResolves(d, d.parent[n]);
      ResolveStep(d, PathTo(d, d.parent[n]), StepOf(d, d.parent[n], n), d.parent[n], n);
    }
  }

  lemma ResolveStep(d: Document, path: seq<Step>, step: Step, p: Element, n: Element)
    requires IsTree(d) && p in d.info && n in d.info && Known(d, d.info[p].children)
    requires Resolve(d, path) == {p} && Select(d, p, step) == {n}
    ensures Resolve(d, path + [step]) == {n}
  {
    hide IsTree, Select;
    var all := path + [step];
    assert all[..|all| - 1] == path && all[|all| - 1] == step;
    assert p in Resolve(d, path) && n in Select(d, p, step);
    assert n in Resolve(d, all);
  }

  /** Of lists without names that compare equal among the children of one list, the path of one leads to another. */
  lemma EqualSiblingIsMissed(d: Document, m: Element, n: Element) returns (e: Element)
    requires IsTree(d) && ValidIds(d) && EqualSiblings(d, m, n)
    ensures e in d.info && e in d.parent && d.parent[e] in d.info && Known(d, d.info[d.parent[e]].children)
    ensures d.info[e].kind == ListElement
    ensures e !in Select(d, d.parent[e], StepOf(d, d.parent[e], e))
  {
    var p := d.parent[n];
    assert n in d.parent.Keys;
    ChildrenKnown(d, p);
    var children := d.info[p].children;
    var lists := ListsOf(d, children);
    ListsOfMeans(d, children);
    assert m in lists && n in lists;
    IndexOfMeans(d, lists, m);
    IndexOfMeans(d, lists, n);
    assert IndexOf(d, lists, m) == IndexOf(d, lists, n);
    e := if lists[IndexOf(d, lists, n)] == n then m else n;
  }

  /** Every path leads to its element alone if and only if no two lists without names that compare equal are children of
      one list. */
  lemma PathsResolve(d: Document)
    requires IsTree(d) && ValidIds(d)
    ensures (forall n :: n in d.info ==> Resolve(d, PathTo(d, n)) == {n}) <==> NoEqualSiblings(d)
  {
    if NoEqualSiblings(d) {
      forall n | n in d.info ensures Resolve(d, PathTo(d, n)) == {n} {
        PathResolves(d, n);
      }
    } else {
      var m, n :| EqualSiblings(d, m, n);
      var e := EqualSiblingIsMissed(d, m, n);
      if Resolve(d, PathTo(d, d.parent[e])) == {d.parent[e]} {
        MissedIsNotResolved(d, e);
      }
    }
  }

  lemma MissedIsNotResolved(d: Document, e: Element)
    requires IsTree(d) && ValidIds(d) && e in d.parent && e in d.info && d.parent[e] in d.info
    requires Known(d, d.info[d.parent[e]].children) && (d.info[e].id.Some? || d.info[e].kind == ListElement)
    requires e !in Select(d, d.parent[e], StepOf(d, d.parent[e], e))
    requires Resolve(d, PathTo(d, d.parent[e])) == {d.parent[e]}
    ensures e !in Resolve(d, PathTo(d, e))
  {
    var path, step := PathTo(d, d.parent[e]), StepOf(d, d.parent[e], e);
    ParentFacts(d, e);
    assert PathTo(d, e) == path + [step];
    hide Select, StepOf, IsTree, ValidIds, PathTo;
    OnlyStep(d, path, step, d.parent[e]);
  }

  lemma OnlyStep(d: Document, path: seq<Step>, step: Step, p: Element)
    requires IsTree(d) && p in d.info && Known(d, d.info[p].children) && Resolve(d, path) == {p}
    ensures forall n :: n in Resolve(d, path + [step]) ==> n in Select(d, p, step)
  {
    hide IsTree, Select;
    var all := path + [step];
    assert all[..|all| - 1] == path && all[|all| - 1] == step;
  }

  // ---------------------------------------------------------------- building paths

  predicate IsFilled(d: Document, n: Element)
    requires n in d.info
  {
    d.info[n].kind == ListElement && d.info[n].children != []
  }

  /** Every list seen that has elements has its parent recorded, and the parent of a list seen has been seen. */
  ghost predicate Recorded(d: Document, visited: set<Key>, parents: map<Key, Element>)
    requires IsTree(d)
  {
    && KeyOf(d, d.root) in visited
    && forall n :: n in d.info && IsFilled(d, n) && KeyOf(d, n) in visited ==> IsRecorded(d, n, visited, parents)
  }

  ghost predicate IsRecorded(d: Document, n: Element, visited: set<Key>, parents: map<Key, Element>)
    requires IsTree(d) && n in d.info
  {
    && n in d.parent && d.parent[n] in d.info
    && KeyOf(d, d.parent[n]) in visited
    && KeyOf(d, n) in parents && parents[KeyOf(d, n)] == d.parent[n]
  }

  /** Nothing is taken for a list that has elements but that list itself. */
  lemma FilledAlone(d: Document, m: Element, n: Element)
    requires Valid(d) && NoTwins(d) && m in d.info && n in d.info && m != n && IsFilled(d, m)
    requires d.info[n].kind == ListElement || d.info[n].children == []
    ensures KeyOf(d, m) != KeyOf(d, n)
  {
    assert !Twins(d, m, n);
    assert d.info[m].content == d.info[n].content ==> |d.info[m].children| == |d.info[n].children|;
  }

  lemma RecordedOneMore(d: Document, list: Element, n: Element, visited: set<Key>, parents: map<Key, Element>)
    requires Valid(d) && NoTwins(d) && Recorded(d, visited, parents)
    requires list in d.info && KeyOf(d, list) in visited && n in d.info[list].children && n in d.info
        && d.info[n].kind == ListElement
    ensures Recorded(d, visited + {KeyOf(d, n)}, parents[KeyOf(d, n) := list])
  {
    var visited', parents' := visited + {KeyOf(d, n)}, parents[KeyOf(d, n) := list];
    forall m | m in d.info && IsFilled(d, m) && KeyOf(d, m) in visited'
        ensures IsRecorded(d, m, visited', parents') {
      if m != n {
        FilledAlone(d, m, n);
      }
    }
  }

  lemma UnseenStep(d: Document, some: seq<Element>, n: Element, seen: set<Key>)
    requires Known(d, some) && n in d.info
    ensures var before := Unseen(d, some, seen);
            && Known(d, some + [n])
            && Unseen(d, some + [n], seen) == (if IsUnseen(d, n, seen + Keys(d, before)) then before + [n] else before)
            && Keys(d, before + [n]) == Keys(d, before) + {KeyOf(d, n)}
  {
    var all := some + [n];
    assert all[..|all| - 1] == some && all[|all| - 1] == n;
    KeysOneMore(d, Unseen(d, some, seen), n);
  }

  lemma NoneUnseen(d: Document, seen: set<Key>)
    ensures Unseen(d, [], seen) == [] && Keys(d, []) == {}
  {
  }

  /** Looks through the children of a list, records its parent for every list not seen so far,
      and for the element if it is there. */
  method ScanParents(d: Document, list: Element, element: Element, queue: seq<Element>, seen: set<Key>,
      before: map<Key, Element>)
    returns (found: bool, notexpanded: seq<Element>, visited: set<Key>, parents: map<Key, Element>,
        ghost recorded: map<Key, Element>)
    requires Valid(d) && NoTwins(d) && list in d.info && Known(d, d.info[list].children)
    requires Recorded(d, seen, before) && KeyOf(d, list) in seen
    ensures Recorded(d, visited, recorded) && seen <= visited
    ensures var children := d.info[list].children;
            && (found <==> element in children)
            && (!found ==>
                notexpanded == queue + Unseen(d, children, seen)
                && visited == seen + Keys(d, Unseen(d, children, seen)))
            && (!found ==> parents == recorded)
            && (found ==> element in d.info && parents == recorded[KeyOf(d, element) := list])
  {
    hide Recorded, IsTree, NoTwins, Unseen, Keys, KeyOf;
    var children := d.info[list].children;
    notexpanded, visited, parents := queue, seen, before;
    NoneUnseen(d, seen);
    for i := 0 to |children|
      invariant element !in children[..i]
      invariant notexpanded == queue + Unseen(d, children[..i], seen)
      invariant visited == seen + Keys(d, Unseen(d, children[..i], seen))
      invariant Recorded(d, visited, parents)
    {
      var child := children[i];
      assert child in children;
      assert children[..i + 1] == children[..i] + [child];
      UnseenStep(d, children[..i], child, seen);
      if child == element {
        recorded := parents;
        parents := parents[KeyOf(d, child) := list];
        return true, notexpanded, visited, parents, recorded;
      } else if d.info[child].kind == ListElement && KeyOf(d, child) !in visited {
        RecordedOneMore(d, list, child, visited, parents);
        parents := parents[KeyOf(d, child) := list];
        notexpanded := notexpanded + [child];
        visited := visited + {KeyOf(d, child)};
      }
    }
    assert children[..|children|] == children;
    return false, notexpanded, visited, parents, parents;
  }

  function Reversed(steps: seq<Step>): (r: seq<Step>)
    ensures |r| == |steps|
  {
    if steps == [] then [] else [steps[|steps| - 1]] + Reversed(steps[..|steps| - 1])
  }

  lemma ParentFacts(d: Document, n: Element)
    requires IsTree(d) && ValidIds(d) && n in d.parent
    ensures var p := d.parent[n];
            && n in d.info && p in d.info && Known(d, d.info[p].children)
                && (d.info[n].id.Some? || d.info[n].kind == ListElement)
            && n in d.depth && p in d.depth && d.depth[p] < d.depth[n] && n != d.root
  {
    assert n in d.parent.Keys;
    ChildrenKnown(d, d.parent[n]);
  }

  lemma ReversedLast(components: seq<Step>, step: Step)
    ensures Reversed(components + [step]) == [step] + Reversed(components)
  {
    assert (components + [step])[..|components|] == components;
  }

  lemma ClimbPath(d: Document, n: Element, p: Element, components: seq<Step>)
    requires IsTree(d) && ValidIds(d) && n in d.parent && d.parent[n] == p
    requires n in d.info && p in d.info && Known(d, d.info[p].children)
        && (d.info[n].id.Some? || d.info[n].kind == ListElement)
    ensures PathTo(d, n) + Reversed(components) == PathTo(d, p) + Reversed(components + [StepOf(d, p, n)])
  {
    hide IsTree, ValidIds, StepOf, Reversed;
    ParentFacts(d, n);
    ReversedLast(components, StepOf(d, p, n));
    assert PathTo(d, n) == PathTo(d, p) + [StepOf(d, p, n)];
  }

  /** Follows the recorded parents up to the root. */
  method Climb(d: Document, element: Element, list: Element, visited: set<Key>, parents: map<Key, Element>,
      ghost recorded: map<Key, Element>)
    returns (path: seq<Step>)
    requires Valid(d) && ValidIds(d) && NoTwins(d) && Recorded(d, visited, recorded)
    requires element in d.parent && element in d.info && d.parent[element] == list && list in d.info
        && KeyOf(d, list) in visited
    requires parents == recorded[KeyOf(d, element) := list]
    ensures path == PathTo(d, element)
  {
    hide IsTree, ValidIds, NoTwins, Recorded, PathTo, StepOf, KeyOf;
    var components: seq<Step> := [];
    var obj := element;
    assert PathTo(d, obj) + [] == PathTo(d, element);
    ParentFacts(d, element);
    assert Reversed([]) == [];
    hide Reversed;
    while obj != d.root
      invariant obj in d.info && obj in d.depth
      invariant obj != element ==> obj == d.root || (IsFilled(d, obj) && KeyOf(d, obj) in visited)
      invariant PathTo(d, obj) + Reversed(components) == PathTo(d, element)
      decreases d.depth[obj]
    {
      ClimbStep(d, obj, element, visited, parents, recorded);
      ParentFacts(d, obj);
      var parent := parents[KeyOf(d, obj)];
      ClimbPath(d, obj, parent, components);
      components := components + [StepOf(d, parent, obj)];
      obj := parent;
    }
    path := Reversed(components);
    RootPath(d);
    assert [] + path == path;
  }

  lemma RootPath(d: Document)
    requires IsTree(d) && ValidIds(d)
    ensures PathTo(d, d.root) == []
  {
  }

  lemma ClimbStep(d: Document, obj: Element, element: Element, visited: set<Key>, parents: map<Key, Element>,
      recorded: map<Key, Element>)
    requires Valid(d) && ValidIds(d) && NoTwins(d) && Recorded(d, visited, recorded)
    requires element in d.parent && element in d.info && d.parent[element] in d.info
        && KeyOf(d, d.parent[element]) in visited
    requires parents == recorded[KeyOf(d, element) := d.parent[element]]
    requires obj in d.info && obj != d.root
        && (obj == element || (IsFilled(d, obj) && KeyOf(d, obj) in visited))
    ensures obj in d.parent && KeyOf(d, obj) in parents && parents[KeyOf(d, obj)] == d.parent[obj]
    ensures var p := d.parent[obj];
            p in d.info
            && (p == d.root || (IsFilled(d, p) && KeyOf(d, p) in visited))
    ensures d.info[obj].id.Some? || d.info[obj].kind == ListElement
  {
    ParentFacts(d, obj) by { assert obj in d.parent.Keys; }
    hide ValidIds, NoTwins, KeyOf;
    assert obj in d.parent.Keys;
    if obj != element {
      assert IsRecorded(d, obj, visited, recorded);
      FilledAlone(d, obj, element);
    }
    assert d.info[d.parent[obj]].children != [];
  }

  /** Without named lists with elements that compare equal the search comes across everything in the document. */
  lemma EverythingIsFound(d: Document, element: Element)
    requires Valid(d) && NoTwins(d) && element != d.root
    ensures element in d.info ==> element in d.parent && d.parent[element] in d.info
    ensures FirstWith(d, SearchOrder(d), element) == if element in d.info then Some(d.parent[element]) else None
  {
    hide FirstWith, SearchOrder;
    EveryParentIsFound(d);
    FoundIsParent(d, element);
    assert element in d.info ==> element in d.parent.Keys;
  }

  /** The path of an element in the document, or nothing for what is not in it. */
  method GetXPath(d: Document, element: Element) returns (r: Option<seq<Step>>)
    requires Valid(d) && ValidIds(d) && NoTwins(d)
    ensures r == if element in d.info then Some(PathTo(d, element)) else None
    ensures element in d.info && NoEqualSiblings(d) ==> Resolve(d, r.value) == {element}
  {
    hide Unseen, Keys, AllKeys, FirstWith, Expanded, Recorded, IsTree, ValidIds, NoTwins, Resolve, PathTo, KeyOf;
    if element == d.root {
      RootPath(d);
      RootInside(d);
      if NoEqualSiblings(d) {
        PathResolves(d, element);
      }
      return Some([]);
    }
    EverythingIsFound(d, element);
    RootInside(d);
    var notexpanded := [d.root];
    var visited := {KeyOf(d, d.root)};
    var parents: map<Key, Element> := map[];
    ghost var done: seq<Element> := [];
    NothingRecorded(d, visited, parents);
    assert [] + SearchOrder(d) == SearchOrder(d);
    while notexpanded != []
      invariant Known(d, notexpanded)
      invariant Keys(d, notexpanded) <= visited
      invariant Known(d, done) && forall n :: n in done ==> element !in d.info[n].children
      invariant SearchOrder(d) == done + Expanded(d, notexpanded, visited)
      invariant Recorded(d, visited, parents)
      decreases AllKeys(d) - visited, |notexpanded|
    {
      var list := notexpanded[0];
      ghost var order := Expanded(d, notexpanded, visited);
      OneStep(d, notexpanded, visited, element);
      QueueKeys(d, notexpanded, visited);
      var found;
      ghost var recorded;
      found, notexpanded, visited, parents, recorded :=
        ScanParents(d, list, element, notexpanded[1..], visited, parents);
      if found {
        FirstWithSkips(d, done, order, element);
        var path := Climb(d, element, list, visited, parents, recorded);
        if NoEqualSiblings(d) {
          PathResolves(d, element);
        }
        return Some(path);
      }
      assert done + order == done + [list] + Expanded(d, notexpanded, visited);
      done := done + [list];
    }
    NoneExpanded(d, visited);
    assert done + [] == done;
    NotAmong(d, done, element);
    return None;
  }

  lemma RootInside(d: Document)
    requires IsTree(d)
    ensures d.root in d.info && Known(d, [d.root]) && Keys(d, [d.root]) == {KeyOf(d, d.root)}
    ensures SearchOrder(d) == Expanded(d, [d.root], {KeyOf(d, d.root)})
  {
    assert d.root in [d.root];
  }

  lemma QueueKeys(d: Document, queue: seq<Element>, seen: set<Key>)
    requires IsTree(d) && Known(d, queue) && queue != [] && Keys(d, queue) <= seen
    ensures KeyOf(d, queue[0]) in seen && Known(d, d.info[queue[0]].children)
    ensures var more := Unseen(d, d.info[queue[0]].children, seen);
            Known(d, queue[1..] + more) && Keys(d, queue[1..] + more) <= seen + Keys(d, more)
  {
    ChildrenKnown(d, queue[0]);
    var more := Unseen(d, d.info[queue[0]].children, seen);
    assert queue[0] in queue && KeyOf(d, queue[0]) in Keys(d, queue);
    forall n | n in queue[1..] + more ensures KeyOf(d, n) in seen + Keys(d, more) {
      assert n in queue || n in more;
      assert n in queue ==> KeyOf(d, n) in Keys(d, queue);
    }
  }

  lemma NothingRecorded(d: Document, visited: set<Key>, parents: map<Key, Element>)
    requires Valid(d) && visited == {KeyOf(d, d.root)}
    ensures Recorded(d, visited, parents)
  {
  }
}
