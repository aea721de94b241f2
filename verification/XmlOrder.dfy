/** Where a child element goes among its siblings (sipsimple/payloads/__init__.py, `XMLElement._insert_element`), and
  * why the order that results is the stable sort of the order of arrival. */
module XmlOrder {

  /** An XML element is known by its identity; only its tag matters here. */
  class Element {
    const tag: string

    constructor (tag: string)
      ensures this.tag == tag
    {
      this.tag := tag;
    }
  }

  /** The schema's rank of each tag, with one rank for the tags it does not list. */
  datatype Order = Order(ranks: map<string, int>, other: int) {
    function Rank(e: Element): int {
      if e.tag in ranks then ranks[e.tag] else other
    }
  }

  ghost predicate NoRepeats(s: seq<Element>) {
    forall i, j :: 0 <= i < j < |s| ==> s[i] != s[j]
  }

  ghost predicate Sorted(order: Order, s: seq<Element>) {
    forall i, j :: 0 <= i < j < |s| ==> order.Rank(s[i]) <= order.Rank(s[j])
  }

  /** The elements of one rank, in the order they come. */
  ghost function OfRank(order: Order, s: seq<Element>, rank: int): (part: seq<Element>)
    ensures forall e :: e in part ==> e in s && order.Rank(e) == rank
  {
    if s == [] then []
    else (if order.Rank(s[0]) == rank then [s[0]] else []) + OfRank(order, s[1..], rank)
  }

  /** `s` holds what arrived, by rank, and within a rank in order of arrival. */
  ghost predicate IsStableSort(order: Order, s: seq<Element>, arrivals: seq<Element>) {
    Sorted(order, s) && forall rank :: OfRank(order, s, rank) == OfRank(order, arrivals, rank)
  }

  /** The first place whose element outranks `e`. */
  function Place(order: Order, s: seq<Element>, e: Element): (p: nat)
    ensures p <= |s|
    ensures forall i :: 0 <= i < p ==> order.Rank(s[i]) <= order.Rank(e)
    ensures p < |s| ==> order.Rank(s[p]) > order.Rank(e)
  {
    if s == [] || order.Rank(s[0]) > order.Rank(e) then 0 else 1 + Place(order, s[1..], e)
  }

  function Inserted(order: Order, s: seq<Element>, e: Element): seq<Element> {
    var p := Place(order, s, e);
    s[..p] + [e] + s[p..]
  }

  function Without(s: seq<Element>, e: Element): (rest: seq<Element>)
    ensures forall x :: x in rest ==> x in s && x != e
    ensures forall x :: x in s && x != e ==> x in rest
  {
    if s == [] then [] else (if s[0] == e then [] else [s[0]]) + Without(s[1..], e)
  }

  lemma {:induction false} OfRankJoins(order: Order, a: seq<Element>, b: seq<Element>, rank: int)
    ensures OfRank(order, a + b, rank) == OfRank(order, a, rank) + OfRank(order, b, rank)
  {
    if a == [] {
      assert a + b == b;
    } else {
      assert (a + b)[1..] == a[1..] + b;
      OfRankJoins(order, a[1..], b, rank);
    }
  }

  lemma {:induction false} OfRankAbove(order: Order, s: seq<Element>, rank: int)
    requires forall i :: 0 <= i < |s| ==> order.Rank(s[i]) > rank
    ensures OfRank(order, s, rank) == []
  {
    if s != [] {
      OfRankAbove(order, s[1..], rank);
    }
  }

  lemma InsertedSorted(order: Order, s: seq<Element>, e: Element)
    requires Sorted(order, s)
    ensures Sorted(order, Inserted(order, s, e))
    ensures forall i :: Place(order, s, e) <= i < |s| ==> order.Rank(s[i]) > order.Rank(e)
  {
  }

  lemma OfOther(order: Order, e: Element, rank: int)
    requires order.Rank(e) != rank
    ensures OfRank(order, [e], rank) == []
  {
  }

  lemma OfRankSplit(order: Order, s: seq<Element>, p: nat, e: Element, rank: int)
    requires p <= |s|
    ensures OfRank(order, s[..p] + [e] + s[p..], rank) ==
            OfRank(order, s[..p], rank) + OfRank(order, [e], rank) + OfRank(order, s[p..], rank)
    ensures OfRank(order, s, rank) == OfRank(order, s[..p], rank) + OfRank(order, s[p..], rank)
  {
    hide *;
    OfRankJoins(order, s[..p] + [e], s[p..], rank);
    OfRankJoins(order, s[..p], [e], rank);
    OfRankJoins(order, s[..p], s[p..], rank);
    assert s == s[..p] + s[p..];
  }

  lemma OfRankAt(order: Order, s: seq<Element>, p: nat, e: Element, rank: int)
    requires p <= |s|
    requires OfRank(order, [e], rank) == [] || OfRank(order, s[p..], rank) == []
    ensures OfRank(order, s[..p] + [e] + s[p..], rank) == OfRank(order, s, rank) + OfRank(order, [e], rank)
  {
    hide *;
    OfRankSplit(order, s, p, e, rank);
    var before, tail, one := OfRank(order, s[..p], rank), OfRank(order, s[p..], rank), OfRank(order, [e], rank);
    assert before + one + tail == before + tail + one;
  }

  lemma OfRankInserted(order: Order, s: seq<Element>, e: Element, rank: int)
    requires Sorted(order, s)
    ensures OfRank(order, Inserted(order, s, e), rank) == OfRank(order, s, rank) + OfRank(order, [e], rank)
  {
    InsertedSorted(order, s, e);
    var p := Place(order, s, e);
    if order.Rank(e) == rank {
      OfRankAbove(order, s[p..], rank);
    } else {
      OfOther(order, e, rank);
    }
    OfRankAt(order, s, p, e, rank);
  }

  /** Inserting keeps the stable sort of what arrived, the new element arriving last. */
  lemma InsertedIsStableSort(order: Order, s: seq<Element>, arrivals: seq<Element>, e: Element)
    requires IsStableSort(order, s, arrivals)
    ensures IsStableSort(order, Inserted(order, s, e), arrivals + [e])
  {
    InsertedSorted(order, s, e);
    hide OfRank, Inserted, Sorted;
    forall r ensures OfRank(order, Inserted(order, s, e), r) == OfRank(order, arrivals + [e], r) {
      OfRankInserted(order, s, e, r);
      OfRankJoins(order, arrivals, [e], r);
    }
  }

  lemma {:induction false} OfRankWithout(order: Order, s: seq<Element>, e: Element, rank: int)
    ensures OfRank(order, Without(s, e), rank) == Without(OfRank(order, s, rank), e)
  {
    if s != [] {
      var first, rest := [s[0]], s[1..];
      OfRankWithout(order, rest, e, rank);
      OneWithout(order, s[0], e, rank);
      assert s == first + rest;
      hide *;
      WithoutJoins(first, rest, e);
      OfRankJoins(order, Without(first, e), Without(rest, e), rank);
      OfRankJoins(order, first, rest, rank);
      WithoutJoins(OfRank(order, first, rank), OfRank(order, rest, rank), e);
    }
  }

  lemma OneWithout(order: Order, x: Element, e: Element, rank: int)
    ensures OfRank(order, Without([x], e), rank) == Without(OfRank(order, [x], rank), e)
  {
  }

  lemma {:induction false} WithoutJoins(a: seq<Element>, b: seq<Element>, e: Element)
    ensures Without(a + b, e) == Without(a, e) + Without(b, e)
  {
    if a == [] {
      assert a + b == b;
    } else {
      assert (a + b)[1..] == a[1..] + b;
      WithoutJoins(a[1..], b, e);
    }
  }

  lemma {:induction false} WithoutKeepsOrder(order: Order, s: seq<Element>, e: Element)
    ensures Sorted(order, s) ==> Sorted(order, Without(s, e))
    ensures NoRepeats(s) ==> NoRepeats(Without(s, e))
  {
    if s != [] {
      WithoutKeepsOrder(order, s[1..], e);
      assert forall i :: 0 <= i < |s[1..]| ==> s[1..][i] == s[i + 1];
      assert NoRepeats(s) ==> s[0] !in s[1..] && NoRepeats(s[1..]);
      assert forall x :: x in s[1..] && Sorted(order, s) ==> order.Rank(s[0]) <= order.Rank(x);
    }
  }

  /** Removing an element keeps the stable sort of what else arrived. */
  lemma WithoutIsStableSort(order: Order, s: seq<Element>, arrivals: seq<Element>, e: Element)
    requires IsStableSort(order, s, arrivals)
    ensures IsStableSort(order, Without(s, e), Without(arrivals, e))
  {
    WithoutKeepsOrder(order, s, e);
    forall r ensures OfRank(order, Without(s, e), r) == OfRank(order, Without(arrivals, e), r) {
      OfRankWithout(order, s, e, r);
      OfRankWithout(order, arrivals, e, r);
    }
  }

  lemma InsertedHolds(order: Order, s: seq<Element>, e: Element)
    requires NoRepeats(s) && e !in s
    ensures NoRepeats(Inserted(order, s, e))
    ensures forall x :: x in Inserted(order, s, e) ==> x == e || x in s
    ensures e in Inserted(order, s, e)
    ensures forall x :: x in s ==> x in Inserted(order, s, e)
  {
    var p := Place(order, s, e);
    assert s == s[..p] + s[p..];
    assert Inserted(order, s, e)[p] == e;
  }
}
