/**
 * The slots of a log-linear histogram (benchkit/hdr.go): bucket k holds values at width
 * 2^(k+unit), and every bucket after the first uses only the upper half of its sub-buckets.
 * Shifts, the bit length and the bitwise or are written as arithmetic on naturals.
 */
module HistogramLayout {
  import opened Numbers

  // ---- shifts and bit length ----

  function Shl(x: nat, n: nat): nat {
    if n == 0 then x else 2 * Shl(x, n - 1)
  }

  function Shr(x: nat, n: nat): nat {
    if n == 0 then x else Shr(x, n - 1) / 2
  }

  /** The number of bits of x. */
  function Len(x: nat): nat {
    if x == 0 then 0 else 1 + Len(x / 2)
  }

  function Or(x: nat, y: nat): nat
    decreases x + y
  {
    if x == 0 && y == 0 then 0
    else 2 * Or(x / 2, y / 2) + (if x % 2 == 1 || y % 2 == 1 then 1 else 0)
  }

  lemma {:induction false} LenOr(x: nat, y: nat)
    ensures Len(Or(x, y)) == Max(Len(x), Len(y))
    decreases x + y
  {
    if x != 0 || y != 0 {
      LenOr(x / 2, y / 2);
      OrHalf(x, y);
    }
  }

  lemma {:induction false} OrHalf(x: nat, y: nat)
    requires x != 0 || y != 0
    ensures Or(x, y) > 0 && Or(x, y) / 2 == Or(x / 2, y / 2)
    decreases x + y
  {
    if x % 2 == 0 && y % 2 == 0 {
      OrHalf(x / 2, y / 2);
    }
  }

  lemma {:induction false} ShlSum(x: nat, y: nat, n: nat)
    ensures Shl(x + y, n) == Shl(x, n) + Shl(y, n)
  {
    if n > 0 {
      ShlSum(x, y, n - 1);
    }
  }

  lemma {:induction false} ShlMonotone(x: nat, y: nat, n: nat)
    ensures x <= y <==> Shl(x, n) <= Shl(y, n)
  {
    if n > 0 {
      ShlMonotone(x, y, n - 1);
    }
  }

  lemma {:induction false} ShlDouble(x: nat, n: nat)
    ensures Shl(2 * x, n) == Shl(x, n + 1)
  {
    if n > 0 {
      ShlDouble(x, n - 1);
    }
  }

  lemma {:induction false} ShlShl(x: nat, m: nat, n: nat)
    ensures Shl(Shl(x, m), n) == Shl(x, m + n)
  {
    if n > 0 {
      ShlShl(x, m, n - 1);
    }
  }

  lemma {:induction false} ShrBounds(x: nat, n: nat)
    ensures Shl(Shr(x, n), n) <= x < Shl(Shr(x, n) + 1, n)
  {
    if n > 0 {
      var a := Shr(x, n - 1);
      ShrBounds(x, n - 1);
      ShlDouble(a / 2, n - 1);
      ShlDouble(a / 2 + 1, n - 1);
      ShlMonotone(2 * (a / 2), a, n - 1);
      ShlMonotone(a + 1, 2 * (a / 2 + 1), n - 1);
    }
  }

  lemma ShrCompare(x: nat, n: nat, q: nat)
    ensures Shr(x, n) >= q <==> x >= Shl(q, n)
  {
    ShrBounds(x, n);
    ShlMonotone(q, Shr(x, n), n);
    ShlMonotone(Shr(x, n) + 1, q, n);
  }

  lemma ShrUnique(x: nat, n: nat, q: nat)
    requires Shl(q, n) <= x < Shl(q + 1, n)
    ensures Shr(x, n) == q
  {
    ShrBounds(x, n);
    ShlMonotone(Shr(x, n) + 1, q, n);
    ShlMonotone(q + 1, Shr(x, n), n);
  }

  lemma {:induction false} LenBound(x: nat, n: nat)
    ensures Len(x) <= n <==> x < Shl(1, n)
  {
    if x > 0 && n > 0 {
      LenBound(x / 2, n - 1);
    }
    ShlPositive(n);
  }

  // ---- the layout ----

  datatype Layout = Layout(highest: nat, sigfigs: nat, unit: nat, half: nat, buckets: nat)

  function Pow10(n: nat): (r: nat)
    ensures r >= 1
  {
    if n == 0 then 1 else 10 * Pow10(n - 1)
  }

  /** Every value up to highest has a bucket, and half a bucket resolves the digits. */
  predicate Sound(l: Layout) {
    && l.buckets >= 1
    && l.highest < Shl(1, l.unit + l.half + l.buckets)
    && Pow10(l.sigfigs) <= Shl(1, l.half)
  }

  function SubBucketCount(l: Layout): nat {
    Shl(1, l.half + 1)
  }

  function SubBucketHalfCount(l: Layout): (r: nat)
    ensures r >= 1
  {
    ShlPositive(l.half);
    Shl(1, l.half)
  }

  lemma {:induction false} ShlPositive(n: nat)
    ensures Shl(1, n) >= 1
  {
    if n > 0 {
      ShlPositive(n - 1);
    }
  }

  function SubBucketMask(l: Layout): nat {
    ShlPositive(l.half + 1);
    Shl(SubBucketCount(l) - 1, l.unit)
  }

  function BucketIndex(l: Layout, v: nat): int {
    Len(Or(v, SubBucketMask(l))) - l.unit - (l.half + 1)
  }

  function SubBucketIndex(l: Layout, v: nat, k: nat): nat {
    Shr(v, k + l.unit)
  }

  function CountsIndex(l: Layout, k: nat, i: nat): int {
    Shl(k + 1, l.half) + i - SubBucketHalfCount(l)
  }

  function ValueFromIndex(l: Layout, k: nat, i: nat): nat {
    Shl(i, k + l.unit)
  }

  function RangeSize(l: Layout, k: nat): (r: nat)
    ensures r >= 1
  {
    ShlPositive(k + l.unit);
    Shl(1, k + l.unit)
  }

  /** The number of slots of the counts array. */
  function Slots(l: Layout): nat {
    Shl(l.buckets + 1, l.half)
  }

  /** The pairs the buckets are made of: all sub-buckets of the first, the upper halves of the rest. */
  predicate IsPair(l: Layout, k: nat, i: nat) {
    && k < l.buckets
    && (if k == 0 then 0 else SubBucketHalfCount(l)) <= i < SubBucketCount(l)
  }

  // ---- slots back to pairs ----

  function BucketOf(l: Layout, s: nat): nat {
    if Shr(s, l.half) <= 1 then 0 else Shr(s, l.half) - 1
  }

  function SubBucketOf(l: Layout, s: nat): (i: nat)
    ensures CountsIndex(l, BucketOf(l, s), i) == s
  {
    ShrBounds(s, l.half);
    ShlMonotone(BucketOf(l, s), Shr(s, l.half), l.half);
    ShlSum(BucketOf(l, s), 1, l.half);
    s - Shl(BucketOf(l, s), l.half)
  }

  /** Every slot is the slot of exactly one pair: slot to pair ... */
  lemma SlotIsPair(l: Layout, s: nat)
    requires s < Slots(l) && l.buckets >= 1
    ensures IsPair(l, BucketOf(l, s), SubBucketOf(l, s))
  {
    var q, k := Shr(s, l.half), BucketOf(l, s);
    ShrBounds(s, l.half);
    ShlMonotone(l.buckets + 1, q, l.half);
    ShlSum(k, 1, l.half);
    ShlSum(k + 1, 1, l.half);
    ShlMonotone(q + 1, k + 2, l.half);
    ShlMonotone(k + 1, q, l.half);
  }

  /** ... and pair to slot, within the array. */
  lemma PairIsSlot(l: Layout, k: nat, i: nat)
    requires IsPair(l, k, i)
    ensures 0 <= CountsIndex(l, k, i) < Slots(l)
    ensures BucketOf(l, CountsIndex(l, k, i)) == k && SubBucketOf(l, CountsIndex(l, k, i)) == i
  {
    var s := CountsIndex(l, k, i);
    ShlSum(k, 1, l.half);
    ShlSum(k + 1, 1, l.half);
    ShlMonotone(k + 2, l.buckets + 1, l.half);
    ShlMonotone(0, k, l.half);
    if i < SubBucketHalfCount(l) {
      ShrUnique(s, l.half, 0);
    } else {
      ShrUnique(s, l.half, k + 1);
    }
  }

  // ---- slots partition the values, in ascending order ----

  /** The lowest value of slot s. */
  function Low(l: Layout, s: nat): nat {
    ValueFromIndex(l, BucketOf(l, s), SubBucketOf(l, s))
  }

  function Width(l: Layout, s: nat): (r: nat)
    ensures r >= 1
  {
    RangeSize(l, BucketOf(l, s))
  }

  /** A slot ends where the next one starts. */
  lemma SlotsAdjoin(l: Layout, s: nat)
    ensures Low(l, s + 1) == Low(l, s) + Width(l, s)
  {
    var k, i := BucketOf(l, s), SubBucketOf(l, s);
    ShlSum(i, 1, k + l.unit);
    NextPair(l, s);
    if BucketOf(l, s + 1) != k {
      ShlDouble(SubBucketOf(l, s + 1), k + l.unit);
    }
  }

  /** The pair after (k, i): the next sub-bucket, or the middle of the next bucket. */
  lemma NextPair(l: Layout, s: nat)
    ensures var k, i, k', i' := BucketOf(l, s), SubBucketOf(l, s), BucketOf(l, s + 1), SubBucketOf(l, s + 1);
            || (k' == k && i' == i + 1)
            || (k' == k + 1 && 2 * i' == i + 1)
  {
    var q := Shr(s, l.half);
    ShrBounds(s, l.half);
    ShlSum(q + 1, 1, l.half);
    ShlPositive(l.half);
    if s + 1 == Shl(q + 1, l.half) {
      ShrUnique(s + 1, l.half, q + 1);
      ShlSum(BucketOf(l, s), 1, l.half);
      ShlSum(BucketOf(l, s) + 1, 1, l.half);
    } else {
      ShrUnique(s + 1, l.half, q);
    }
  }

  lemma {:induction false} LowMonotone(l: Layout, s: nat, t: nat)
    requires s <= t
    ensures Low(l, s) <= Low(l, t) && (s < t ==> Low(l, s) + Width(l, s) <= Low(l, t))
  {
    if s < t {
      LowMonotone(l, s, t - 1);
      SlotsAdjoin(l, t - 1);
    }
  }

  lemma FirstSlot(l: Layout)
    ensures Low(l, 0) == 0
  {
    ShlPositive(l.half);
    ShlZero(l.half);
    ShlZero(l.unit);
    ShrUnique(0, l.half, 0);
  }

  lemma {:induction false} ShlZero(n: nat)
    ensures Shl(0, n) == 0
  {
    if n > 0 {
      ShlZero(n - 1);
    }
  }

  predicate InSlot(l: Layout, s: nat, v: nat) {
    Low(l, s) <= v < Low(l, s) + Width(l, s)
  }

  lemma SlotUnique(l: Layout, s: nat, t: nat, v: nat)
    requires InSlot(l, s, v) && InSlot(l, t, v)
    ensures s == t
  {
    if s < t {
      LowMonotone(l, s, t);
    } else if t < s {
      LowMonotone(l, t, s);
    }
  }

  // ---- recording finds the slot ----

  lemma MaskLength(l: Layout)
    ensures Len(SubBucketMask(l)) == l.unit + l.half + 1
  {
    var m := SubBucketMask(l);
    var top := Shl(1, l.half + 1);
    ShlPositive(l.half);
    ShlShl(1, l.half + 1, l.unit);
    ShlShl(1, l.half, l.unit);
    ShlMonotone(top, top - 1, l.unit);
    ShlMonotone(Shl(1, l.half), top - 1, l.unit);
    LenBound(m, l.unit + l.half + 1);
    LenBound(m, l.unit + l.half);
  }

  /** The bucket of v: none below the first, and one more for each further bit. */
  lemma BucketIndexIs(l: Layout, v: nat)
    ensures BucketIndex(l, v) == Max(0, Len(v) - l.unit - l.half - 1)
  {
    LenOr(v, SubBucketMask(l));
    MaskLength(l);
  }

  function SlotOf(l: Layout, v: nat): (s: nat)
    requires Sound(l) && v <= l.highest
    ensures s < Slots(l) && InSlot(l, s, v)
  {
    RecordSlot(l, v);
    CountsIndex(l, BucketIndex(l, v), SubBucketIndex(l, v, BucketIndex(l, v)))
  }

  /** The slot a value is counted in exists and holds the value. */
  lemma RecordSlot(l: Layout, v: nat)
    requires Sound(l) && v <= l.highest
    ensures BucketIndex(l, v) >= 0
    ensures IsPair(l, BucketIndex(l, v), SubBucketIndex(l, v, BucketIndex(l, v)))
    ensures var s := CountsIndex(l, BucketIndex(l, v), SubBucketIndex(l, v, BucketIndex(l, v)));
            0 <= s < Slots(l) && InSlot(l, s, v)
  {
    BucketIndexIs(l, v);
    RecordPair(l, v, BucketIndex(l, v));
    PairHolds(l, v, BucketIndex(l, v));
  }

  /** A value lies in the slot of its sub-bucket. */
  lemma PairHolds(l: Layout, v: nat, k: nat)
    requires IsPair(l, k, SubBucketIndex(l, v, k))
    ensures var s := CountsIndex(l, k, SubBucketIndex(l, v, k)); 0 <= s < Slots(l) && InSlot(l, s, v)
  {
    PairIsSlot(l, k, SubBucketIndex(l, v, k));
    ShrBounds(v, k + l.unit);
    ShlSum(SubBucketIndex(l, v, k), 1, k + l.unit);
  }

  /** The bucket and sub-bucket of a value are a pair. */
  lemma RecordPair(l: Layout, v: nat, k: nat)
    requires Sound(l) && v <= l.highest && k == Max(0, Len(v) - l.unit - l.half - 1)
    ensures IsPair(l, k, SubBucketIndex(l, v, k))
  {
    LenBound(v, l.unit + l.half + l.buckets);
    SubBucketBelow(l, v, k);
    if k > 0 {
      SubBucketAbove(l, v, k);
    }
  }

  lemma SubBucketBelow(l: Layout, v: nat, k: nat)
    requires Len(v) <= k + l.unit + l.half + 1
    ensures SubBucketIndex(l, v, k) < SubBucketCount(l)
  {
    LenBound(v, k + l.unit + l.half + 1);
    ShlShl(1, l.half + 1, k + l.unit);
    ShrCompare(v, k + l.unit, SubBucketCount(l));
  }

  lemma SubBucketAbove(l: Layout, v: nat, k: nat)
    requires Len(v) > k + l.unit + l.half
    ensures SubBucketIndex(l, v, k) >= SubBucketHalfCount(l)
  {
    LenBound(v, k + l.unit + l.half);
    ShlShl(1, l.half, k + l.unit);
    ShrCompare(v, k + l.unit, SubBucketHalfCount(l));
  }

  /** A value of a further bucket is at least 10^sigfigs times its slot's width. */
  lemma Precision(l: Layout, s: nat, v: nat)
    requires Sound(l) && s < Slots(l) && InSlot(l, s, v)
    ensures BucketOf(l, s) > 0 ==> Scale(Pow10(l.sigfigs), Width(l, s)) <= v
    ensures BucketOf(l, s) == 0 ==> Width(l, s) == Shl(1, l.unit)
  {
    var k, i := BucketOf(l, s), SubBucketOf(l, s);
    SlotIsPair(l, s);
    if k > 0 {
      ShlMonotone(Pow10(l.sigfigs), i, k + l.unit);
      ShlIsProduct(Pow10(l.sigfigs), k + l.unit);
    }
  }

  function Scale(x: nat, y: nat): (r: nat)
    ensures r == x * y
  {
    x * y
  }

  lemma {:induction false} ShlIsProduct(x: nat, n: nat)
    ensures Shl(x, n) == Scale(x, Shl(1, n))
  {
    if n > 0 {
      ShlIsProduct(x, n - 1);
    }
  }
}
