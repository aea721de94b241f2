/** The number that a 64-bit word stands for, and what shifting and OR do to it. */
module WordBits {
  const TWO_TO_THE_64: nat := 0x1_0000_0000_0000_0000
  const HALF: nat := 0x8000_0000_0000_0000

  function Value(x: bv64): nat {
    x as nat
  }

  predicate Top(x: bv64) {
    x & 0x8000_0000_0000_0000 != 0
  }

  function Low(x: bv64): bv64 {
    x & 0x7FFF_FFFF_FFFF_FFFF
  }

  function Twice(x: bv64): bv64 {
    x << 1
  }

  function Or(a: bv64, b: bv64): bv64 {
    a | b
  }

  predicate NoBitInCommon(a: bv64, b: bv64) {
    a & b == 0
  }

  /** Nothing is left of a word when it is shifted this far. */
  predicate Ends(a: bv64, k: bv8)
    requires k <= 64
  {
    a << k == 0
  }

  lemma ValueLow(x: bv64)
    ensures Value(x) == Value(Low(x)) + if Top(x) then HALF else 0
  {
  }

  lemma ValueTwice(x: bv64)
    ensures Value(Twice(x)) == 2 * Value(Low(x))
  {
  }

  lemma ValueFits(x: bv64)
    ensures Value(x) < TWO_TO_THE_64
  {
  }

  lemma OrTwice(a: bv64, b: bv64)
    ensures Twice(Or(a, b)) == Or(Twice(a), Twice(b))
  {
  }

  lemma OrApart(a: bv64, b: bv64)
    requires NoBitInCommon(a, b)
    ensures NoBitInCommon(Twice(a), Twice(b))
  {
  }

  lemma OrTop(a: bv64, b: bv64)
    requires NoBitInCommon(a, b)
    ensures Top(Or(a, b)) <==> Top(a) || Top(b)
    ensures !(Top(a) && Top(b))
  {
    hide Value, Low, Twice, Ends;
    var c := Or(a, b);
    assert Top(a) || Top(b) ==> Top(c);
    assert !Top(a) && !Top(b) ==> !Top(c);
  }

  lemma EndsNext(a: bv64, k: bv8)
    requires 0 < k <= 64 && Ends(a, k)
    ensures Ends(Twice(a), k - 1)
  {
  }

  lemma EndsZero(a: bv64, b: bv64)
    requires Ends(a, 0)
    ensures Or(a, b) == b && Value(a) == 0
  {
  }

  /** The OR of words that have no bit in common is their sum: the top bits are split off, and
      the rest is shifted up. */
  lemma {:induction false} OrIsSum(a: bv64, b: bv64, k: bv8)
    requires NoBitInCommon(a, b) && k <= 64 && Ends(a, k)
    ensures Value(Or(a, b)) == Value(a) + Value(b)
    decreases k
  {
    hide *;
    if k == 0 {
      EndsZero(a, b);
    } else {
      OrTwice(a, b);
      OrApart(a, b);
      OrTop(a, b);
      EndsNext(a, k);
      ValueLow(a);
      ValueLow(b);
      ValueLow(Or(a, b));
      ValueTwice(a);
      ValueTwice(b);
      ValueTwice(Or(a, b));
      OrIsSum(Twice(a), Twice(b), k - 1);
    }
  }

  lemma Doubled(a: bv64)
    ensures Value(Twice(a)) == 2 * Value(a) % TWO_TO_THE_64
  {
    ValueLow(a);
    ValueTwice(a);
    ValueFits(Twice(a));
    hide Value, Low, Twice, Top;
  }

  function Eightfold(a: bv64): bv64 {
    Twice(Twice(Twice(a)))
  }

  /** Shifting up by three multiplies by eight, in 64-bit arithmetic. */
  lemma EightTimes(a: bv64)
    ensures Value(Eightfold(a)) == 8 * Value(a) % TWO_TO_THE_64
  {
    Doubled(a);
    Doubled(Twice(a));
    Doubled(Twice(Twice(a)));
    hide Value, Twice;
    ProductOfRemainder(2, 2, Value(a));
    ProductOfRemainder(2, 4, Value(a));
  }

  lemma ThreeTimesEight(x: nat, y: nat, z: nat)
    requires y == 8 * x % TWO_TO_THE_64 && z == 8 * y % TWO_TO_THE_64
    ensures 8 * z % TWO_TO_THE_64 == x * 512 % TWO_TO_THE_64
  {
    ProductOfRemainder(8, 8, x);
    ProductOfRemainder(8, 64, x);
  }

  lemma ProductOfRemainder(a: nat, b: nat, x: nat)
    ensures a * (b * x % TWO_TO_THE_64) % TWO_TO_THE_64 == a * b * x % TWO_TO_THE_64
  {
    var m := TWO_TO_THE_64;
    var q, r := b * x / m, b * x % m;
    assert a * b * x == a * (b * x) == a * (q * m + r) == a * q * m + a * r;
    SameRemainder(a * r, a * q, m);
  }

  lemma SameRemainder(x: nat, k: nat, m: nat)
    requires m > 0
    ensures (k * m + x) % m == x % m
  {
    var q, r := x / m, x % m;
    assert k * m + x == (k + q) * m + r;
    RemainderIs(k * m + x, k + q, r, m);
  }

  lemma ProductGrows(a: nat, b: nat, m: nat)
    ensures a <= b ==> a * m <= b * m
    ensures (a + 1) * m == a * m + m
  {
  }

  lemma RemainderIs(x: nat, k: nat, r: nat, m: nat)
    requires r < m && x == k * m + r
    ensures x % m == r
  {
    ProductGrows(x / m + 1, k, m);
    ProductGrows(k + 1, x / m, m);
    ProductGrows(x / m, k, m);
    ProductGrows(k, x / m, m);
  }
}
