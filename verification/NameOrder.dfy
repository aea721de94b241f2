/** The order of names as texts, and the sorted list of a set of names. */
module NameOrder {

  /** Lexicographic order by code point. */
  predicate LessEq(a: string, b: string) {
    a == [] || (b != [] && (a[0] < b[0] || (a[0] == b[0] && LessEq(a[1..], b[1..]))))
  }

  lemma {:induction false} LessEqOrder(a: string, b: string, c: string)
    ensures LessEq(a, b) || LessEq(b, a)
    ensures LessEq(a, b) && LessEq(b, a) ==> a == b
    ensures LessEq(a, b) && LessEq(b, c) ==> LessEq(a, c)
    decreases |a|
  {
    if a != [] && b != [] {
      LessEqOrder(a[1..], b[1..], if c == [] then c else c[1..]);
      assert a == [a[0]] + a[1..] && b == [b[0]] + b[1..];
    }
  }

  /** Where two names differ first, the one with the smaller character comes first; and a name that the other starts
    * with comes before it. */
  lemma {:induction false} FirstDifference(a: string, b: string, i: nat)
    requires i <= |a| && i <= |b| && a[..i] == b[..i]
    requires i < |a| && i < |b| ==> a[i] != b[i]
    ensures i < |a| && i < |b| ==> (LessEq(a, b) <==> a[i] < b[i])
    ensures i == |a| ==> LessEq(a, b)
    ensures i == |b| && i < |a| ==> !LessEq(a, b)
    decreases i
  {
    if i > 0 {
      assert a[0] == a[..i][0] && b[0] == b[..i][0];
      assert a[1..][..i - 1] == a[..i][1..] && b[1..][..i - 1] == b[..i][1..];
      FirstDifference(a[1..], b[1..], i - 1);
    }
  }

  ghost predicate IsLeast(least: string, names: set<string>) {
    least in names && forall x :: x in names ==> LessEq(least, x)
  }

  lemma {:induction false} LeastExists(names: set<string>)
    requires names != {}
    ensures exists least :: IsLeast(least, names)
  {
    var x :| x in names;
    var others := names - {x};
    if others == {} {
      LessEqOrder(x, x, x);
      assert names == {x};
      assert IsLeast(x, names);
    } else {
      LeastExists(others);
      var y :| IsLeast(y, others);
      LessEqOrder(x, y, x);
      LessEqOrder(x, x, x);
      if LessEq(x, y) {
        forall z | z in names ensures LessEq(x, z) { LessEqOrder(x, y, z); }
        assert IsLeast(x, names);
      } else {
        assert IsLeast(y, names);
      }
    }
  }

  /** The names of a dictionary in sorted order. */
  function SortedNames(names: set<string>): (sorted: seq<string>)
    ensures forall x :: x in sorted <==> x in names
    ensures forall i, j :: 0 <= i < j < |sorted| ==> sorted[i] != sorted[j] && LessEq(sorted[i], sorted[j])
    decreases |names|
  {
    if names == {} then []
    else
      LeastExists(names);
      assert forall a, b :: a in names && b in names && LessEq(a, b) && LessEq(b, a) ==> a == b by {
        forall a, b | a in names && b in names && LessEq(a, b) && LessEq(b, a) ensures a == b { LessEqOrder(a, b, a); }
      }
      assert exists x :: x in names && forall y :: y in names ==> LessEq(x, y) by {
        var x :| IsLeast(x, names);
      }
      var least :| least in names && forall x :: x in names ==> LessEq(least, x);
      [least] + SortedNames(names - {least})
  }

  function Elements(names: seq<string>): set<string> {
    set x | x in names
  }

  /** Strictly in order, so without repetition. */
  ghost predicate Ascending(names: seq<string>) {
    forall i, j :: 0 <= i < j < |names| ==> names[i] != names[j] && LessEq(names[i], names[j])
  }

  lemma FirstElement(names: seq<string>)
    ensures names == [] <==> Elements(names) == {}
  {
    if names != [] {
      assert names[0] in Elements(names);
    }
  }

  /** There is one way to list a set in order. */
  lemma {:induction false} OneOrder(a: seq<string>, b: seq<string>)
    requires Ascending(a) && Ascending(b) && Elements(a) == Elements(b)
    ensures a == b
  {
    assert a == [] <==> Elements(a) == {} by { FirstElement(a); }
    assert b == [] <==> Elements(b) == {} by { FirstElement(b); }
    if a != [] {
      assert a[0] in Elements(a) && b[0] in Elements(b);
      var i :| 0 <= i < |a| && a[i] == b[0];
      var j :| 0 <= j < |b| && b[j] == a[0];
      LessEqOrder(a[0], b[0], a[0]);
      assert a[0] == b[0];
      forall x ensures x in Elements(a[1..]) <==> x in Elements(b[1..]) {
        TailElements(a, x);
        TailElements(b, x);
      }
      assert Elements(a[1..]) == Elements(b[1..]);
      OneOrder(a[1..], b[1..]);
    }
  }

  lemma TailElements(names: seq<string>, x: string)
    requires Ascending(names) && names != []
    ensures x in Elements(names[1..]) <==> x in Elements(names) && x != names[0]
  {
    if x in Elements(names) && x != names[0] {
      var i :| 0 <= i < |names| && names[i] == x;
      assert names[1..][i - 1] == x;
    }
  }

  /** A list is the sorted list of its elements if and only if it is in order. */
  lemma SortedIsSame(names: seq<string>)
    ensures SortedNames(Elements(names)) == names <==> Ascending(names)
    ensures Ascending(SortedNames(Elements(names))) && Elements(SortedNames(Elements(names))) == Elements(names)
  {
    var sorted := SortedNames(Elements(names));
    assert Elements(sorted) == Elements(names);
    if Ascending(names) {
      OneOrder(sorted, names);
    }
  }
}
