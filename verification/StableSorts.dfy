/** The sort of records by a pair of keys that sipsimple/lookup.py uses, with what makes it stable. */
module StableSorts {

  type Rank = (int, int)

  predicate Less(a: Rank, b: Rank) {
    a.0 < b.0 || (a.0 == b.0 && a.1 < b.1)
  }

  function Inserted<T>(x: T, s: seq<T>, key: T -> Rank): seq<T> {
    if s == [] || Less(key(x), key(s[0])) then [x] + s else [s[0]] + Inserted(x, s[1..], key)
  }

  /** Each element in turn goes behind those that do not come after it. */
  function Sorted<T>(s: seq<T>, key: T -> Rank): seq<T> {
    if s == [] then [] else Inserted(s[|s| - 1], Sorted(s[..|s| - 1], key), key)
  }

  ghost predicate Ordered<T>(s: seq<T>, key: T -> Rank) {
    forall i, j :: 0 <= i < j < |s| ==> !Less(key(s[j]), key(s[i]))
  }

  function OfRank<T>(s: seq<T>, key: T -> Rank, rank: Rank): seq<T> {
    if s == [] then [] else (if key(s[0]) == rank then [s[0]] else []) + OfRank(s[1..], key, rank)
  }

  lemma {:induction false} InsertedHolds<T>(x: T, s: seq<T>, key: T -> Rank)
    requires Ordered(s, key)
    ensures Ordered(Inserted(x, s, key), key)
    ensures multiset(Inserted(x, s, key)) == multiset(s) + multiset{x}
  {
    if s == [] || Less(key(x), key(s[0])) {
      assert forall i :: 0 < i < |s| ==> !Less(key(s[i]), key(s[0]));
    } else {
      var rest := Inserted(x, s[1..], key);
      InsertedHolds(x, s[1..], key);
      assert s == [s[0]] + s[1..];
      forall i | 0 <= i < |rest| ensures !Less(key(rest[i]), key(s[0])) {
        assert rest[i] in multiset(rest);
        if rest[i] in s[1..] {
          var j :| 0 <= j < |s[1..]| && s[1..][j] == rest[i];
          assert s[j + 1] == rest[i];
        }
      }
    }
  }

  lemma {:induction false} OfRankInserted<T>(x: T, s: seq<T>, key: T -> Rank, rank: Rank)
    requires Ordered(s, key)
    ensures OfRank(Inserted(x, s, key), key, rank) == OfRank(s, key, rank) + if key(x) == rank then [x] else []
  {
    if s == [] {
    } else if Less(key(x), key(s[0])) {
      assert ([x] + s)[1..] == s;
      if key(x) == rank {
        OfRankAbove(s, key, rank);
      }
    } else {
      OfRankInserted(x, s[1..], key, rank);
      assert Inserted(x, s, key)[1..] == Inserted(x, s[1..], key);
    }
  }

  lemma {:induction false} OfRankAbove<T>(s: seq<T>, key: T -> Rank, rank: Rank)
    requires forall i :: 0 <= i < |s| ==> key(s[i]) != rank
    ensures OfRank(s, key, rank) == []
  {
    if s != [] {
      OfRankAbove(s[1..], key, rank);
    }
  }

  lemma {:induction false} OfRankJoins<T>(a: seq<T>, b: seq<T>, key: T -> Rank, rank: Rank)
    ensures OfRank(a + b, key, rank) == OfRank(a, key, rank) + OfRank(b, key, rank)
  {
    if a == [] {
      assert a + b == b;
    } else {
      assert (a + b)[1..] == a[1..] + b;
      OfRankJoins(a[1..], b, key, rank);
    }
  }

  /** Sorting permutes, orders by rank, and keeps the order of elements of one rank. */
  lemma {:induction false} SortedIsStable<T>(s: seq<T>, key: T -> Rank)
    ensures Ordered(Sorted(s, key), key)
    ensures multiset(Sorted(s, key)) == multiset(s)
    ensures forall rank :: OfRank(Sorted(s, key), key, rank) == OfRank(s, key, rank)
  {
    if s != [] {
      var most, last := s[..|s| - 1], s[|s| - 1];
      SortedIsStable(most, key);
      InsertedHolds(last, Sorted(most, key), key);
      assert s == most + [last];
      forall rank ensures OfRank(Sorted(s, key), key, rank) == OfRank(s, key, rank) {
        OfRankInserted(last, Sorted(most, key), key, rank);
        OfRankJoins(most, [last], key, rank);
      }
    }
  }
}
