/** The Histogram class of benchkit/hdr.go: bounded-memory counts of weighted values. */
module Histograms {
  import opened HistogramLayout
  import opened HistogramLog
  import opened Numbers
  import opened Requests

  function Clamp(v: int, highest: nat): nat {
    if v < 0 then 0 else if v > highest then highest else v
  }

  /** Smallest power of two at least 2*10^sigfigs, as half a bucket's magnitude. */
  function HalfMagnitude(sigfigs: nat): nat {
    Len(2 * Pow10(sigfigs) - 1) - 1
  }

  /** The parameters NewHistogram accepts: it panics on others, or its doubling loop wraps. */
  predicate Parameters(lowest: int, highest: int, sigfigs: int) {
    && 1 <= lowest && 2 * lowest <= highest < 0x4000_0000_0000_0000
    && 1 <= sigfigs <= 5
    && Shl(1, Len(lowest) + HalfMagnitude(sigfigs)) <= MAX_INT64
  }

  function LayoutOf(lowest: nat, highest: nat, sigfigs: nat): Layout
    requires lowest >= 1
  {
    var unit, half := Len(lowest) - 1, HalfMagnitude(sigfigs);
    Layout(highest, sigfigs, unit, half, Max(1, Len(highest) - unit - half))
  }

  lemma HalfResolvesDigits(sigfigs: nat)
    ensures Shl(1, HalfMagnitude(sigfigs)) >= Pow10(sigfigs)
    ensures HalfMagnitude(sigfigs) > 0 ==> Shl(1, HalfMagnitude(sigfigs) - 1) < Pow10(sigfigs)
  {
    var x := 2 * Pow10(sigfigs) - 1;
    LenBound(x, Len(x));
    LenBound(x, Len(x) - 1);
  }

  lemma LayoutSound(lowest: nat, highest: nat, sigfigs: nat)
    requires lowest >= 1
    ensures Sound(LayoutOf(lowest, highest, sigfigs))
  {
    var l := LayoutOf(lowest, highest, sigfigs);
    HalfResolvesDigits(sigfigs);
    LenBound(highest, l.unit + l.half + l.buckets);
  }

  /** The least value of the recorded ones, and the greatest. */
  function LeastOf(log: seq<Entry>): int {
    if log == [] then MAX_INT64 else
      var rest, v := LeastOf(log[..|log| - 1]), log[|log| - 1].value;
      if v < rest then v else rest
  }

  function GreatestOf(log: seq<Entry>): int {
    if log == [] then 0 else Max(GreatestOf(log[..|log| - 1]), log[|log| - 1].value)
  }

  /** What recording shifted pairs adds: clamped values, without the empty pairs. */
  function Shifted(highest: nat, pairs: seq<Entry>, delta: int): seq<Entry> {
    if pairs == [] then [] else
      var e := pairs[|pairs| - 1];
      Shifted(highest, pairs[..|pairs| - 1], delta)
      + (if e.count == 0 then [] else [Entry(Clamp(Wrap(e.value + delta), highest), e.count)])
  }

  lemma ShiftedStep(highest: nat, pairs: seq<Entry>, i: nat, delta: int)
    requires i < |pairs|
    ensures Shifted(highest, pairs[..i + 1], delta) == Shifted(highest, pairs[..i], delta)
            + (if pairs[i].count == 0 then []
               else [Entry(Clamp(Wrap(pairs[i].value + delta), highest), pairs[i].count)])
  {
    assert pairs[..i + 1][..i] == pairs[..i];
  }

  lemma Appended(xs: seq<Entry>, ys: seq<Entry>, e: Entry)
    ensures (xs + ys) + [e] == xs + (ys + [e]) && xs + (ys + []) == xs + ys
  {
  }

  /** Counts buckets by doubling the smallest value that is not trackable yet. */
  method CountBuckets(unit: nat, half: nat, highest: nat) returns (bucketCount: nat)
    requires highest < 0x4000_0000_0000_0000 && Shl(1, unit + half + 1) <= MAX_INT64
    ensures bucketCount == Max(1, Len(highest) - unit - half)
  {
    bucketCount := 1;
    var smallestUntrackable: Int64 := Shl(1, unit + half + 1);
    while smallestUntrackable <= highest
      invariant bucketCount >= 1
      invariant smallestUntrackable == Shl(1, unit + half + bucketCount)
      invariant bucketCount > 1 ==> Shl(1, unit + half + bucketCount - 1) <= highest
      decreases highest - smallestUntrackable
    {
      ShlPositive(unit + half + bucketCount);
      smallestUntrackable := 2 * smallestUntrackable;
      bucketCount := bucketCount + 1;
    }
    LenBound(highest, unit + half + bucketCount);
    LenBound(highest, unit + half + bucketCount - 1);
  }

  // ---- when the doubling loop ends ----

  /** An int64 after n doublings. */
  function Doubled(x: Int64, n: nat): Int64 {
    if n == 0 then x else Wrap(2 * Doubled(x, n - 1))
  }

  /** The loop from 2^m leaves the trackable range after some number of doublings. */
  ghost predicate LoopEnds(m: nat, highest: nat) {
    exists n: nat :: Doubled(Wrap(Shl(1, m)), n) > highest
  }

  lemma {:induction false} DoubledIsPower(m: nat, n: nat)
    ensures Doubled(Wrap(Shl(1, m)), n) == Wrap(Shl(1, m + n))
  {
    if n > 0 {
      DoubledIsPower(m, n - 1);
      WrapDouble(Shl(1, m + n - 1));
    }
  }

  lemma TopPowers()
    ensures Shl(1, 62) == 0x4000_0000_0000_0000
  {
    ShlShl(1, 8, 8);
    assert Shl(1, 8) == 0x100 && Shl(0x100, 8) == 0x1_0000;
    ShlShl(1, 16, 8);
    assert Shl(0x1_0000, 8) == 0x100_0000;
    ShlShl(1, 24, 8);
    assert Shl(0x100_0000, 8) == 0x1_0000_0000;
    ShlShl(1, 32, 8);
    assert Shl(0x1_0000_0000, 8) == 0x100_0000_0000;
    ShlShl(1, 40, 8);
    assert Shl(0x100_0000_0000, 8) == 0x1_0000_0000_0000;
    ShlShl(1, 48, 8);
    assert Shl(0x1_0000_0000_0000, 8) == 0x100_0000_0000_0000;
    ShlShl(1, 56, 6);
    assert Shl(0x100_0000_0000_0000, 6) == 0x4000_0000_0000_0000;
  }

  /** A power of two wraps to nothing positive from 2^63 on. */
  lemma {:induction false} PowerWraps(k: nat)
    requires k >= 63
    ensures Wrap(Shl(1, k)) <= 0 && Shl(1, k) > MAX_INT64
    ensures k >= 64 ==> Shl(1, k) % 0x1_0000_0000_0000_0000 == 0
  {
    TopPowers();
    if k > 63 {
      PowerWraps(k - 1);
    }
  }

  lemma {:induction false} PowersGrow(j: nat, k: nat)
    requires j <= k
    ensures Shl(1, j) <= Shl(1, k)
  {
    if j < k {
      PowersGrow(j, k - 1);
    }
  }

  /** The doubling loop ends exactly for a ceiling below 2^62 and a first range within int64. */
  lemma LoopEndsExactly(m: nat, highest: nat)
    requires highest <= MAX_INT64
    ensures LoopEnds(m, highest) <==> highest < 0x4000_0000_0000_0000 && Shl(1, m) <= MAX_INT64
  {
    TopPowers();
    if m <= 62 {
      PowersGrow(m, 62);
      DoubledIsPower(m, 62 - m);
    } else {
      PowerWraps(m);
    }
    forall n: nat | Doubled(Wrap(Shl(1, m)), n) > highest
      ensures highest < 0x4000_0000_0000_0000 && m <= 62
    {
      DoubledIsPower(m, n);
      if m + n >= 63 {
        PowerWraps(m + n);
      } else {
        PowersGrow(m + n, 62);
      }
    }
  }

  /** The counts are what the recorded values give, slot by slot. */
  predicate CountsMatch(l: Layout, log: seq<Entry>, counts: seq<nat>) {
    && |counts| == Slots(l)
    && forall s :: 0 <= s < |counts| ==> counts[s] == SlotWeight(l, log, s)
  }

  lemma NothingCounted(l: Layout, counts: seq<nat>)
    requires |counts| == Slots(l) && forall s :: 0 <= s < |counts| ==> counts[s] == 0
    ensures CountsMatch(l, [], counts)
  {
  }

  /** Adding to the one slot of a value keeps the counts right. */
  lemma RecordKeepsCounts(l: Layout, log: seq<Entry>, counts: seq<nat>, v: nat, n: nat)
    requires Sound(l) && v <= l.highest && CountsMatch(l, log, counts)
    ensures var slot := SlotOf(l, v);
            CountsMatch(l, log + [Entry(v, n)], counts[slot := counts[slot] + n])
  {
    var slot := SlotOf(l, v);
    forall s | 0 <= s < |counts|
      ensures counts[slot := counts[slot] + n][s] == SlotWeight(l, log + [Entry(v, n)], s)
    {
      SlotWeightAppend(l, log, Entry(v, n), s);
      if InSlot(l, s, v) {
        SlotUnique(l, s, slot, v);
      }
    }
  }

  /** A histogram's fields are what the recorded values give. */
  predicate Describes(l: Layout, log: seq<Entry>, counts: seq<nat>, total: nat, least: int, greatest: int) {
    && Sound(l) && Recorded(l, log)
    && CountsMatch(l, log, counts)
    && total == Total(log) && least == LeastOf(log) && greatest == GreatestOf(log)
  }

  lemma RecordKeeps(l: Layout, log: seq<Entry>, counts: seq<nat>, total: nat, least: int, greatest: int, v: nat, n: nat)
    requires Describes(l, log, counts, total, least, greatest) && v <= l.highest && n > 0
    ensures var slot := SlotOf(l, v);
            Describes(l, log + [Entry(v, n)], counts[slot := counts[slot] + n], total + n,
                      if v < least then v else least, Max(greatest, v))
  {
    RecordKeepsCounts(l, log, counts, v, n);
    Last(log, Entry(v, n));
  }

  class Histogram {
    const layout: Layout
    const counts: array<nat>
    var totalCount: nat
    var minValue: int
    var maxValue: int
    ghost var log: seq<Entry>

    /** The fields are what the recorded values give. */
    ghost predicate Valid()
      reads this, counts
    {
      Describes(layout, log, counts[..], totalCount, minValue, maxValue)
    }

    constructor (lowest: int, highest: int, sigfigs: int)
      requires Parameters(lowest, highest, sigfigs)
      ensures Valid() && fresh(counts) && log == []
      ensures layout == LayoutOf(lowest, highest, sigfigs)
    {
      var unit, half := Len(lowest) - 1, HalfMagnitude(sigfigs);
      var bucketCount := CountBuckets(unit, half, highest);
      LayoutSound(lowest, highest, sigfigs);
      layout := Layout(highest, sigfigs, unit, half, bucketCount);
      counts := new nat[Shl(bucketCount + 1, half)](i => 0);
      totalCount, minValue, maxValue := 0, MAX_INT64, 0;
      log := [];
      new;
      NothingCounted(layout, counts[..]);
    }

    /** Records n occurrences of v, and reports whether v is in the trackable range. */
    method RecordValueN(v: int, n: nat) returns (ok: bool)
      requires Valid()
      modifies this, counts
      ensures Valid()
      ensures ok <==> 0 <= v <= layout.highest
      ensures log == if ok && n > 0 then old(log) + [Entry(v, n)] else old(log)
    {
      if v < 0 || v > layout.highest {
        return false;
      }
      if n == 0 {
        return true;
      }
      RecordKeeps(layout, log, counts[..], totalCount, minValue, maxValue, v, n);
      var slot := SlotOf(layout, v);
      ghost var before := counts[..];
      counts[slot] := counts[slot] + n;
      assert counts[..] == before[slot := before[slot] + n];
      totalCount := totalCount + n;
      minValue := if v < minValue then v else minValue;
      maxValue := Max(maxValue, v);
      log := log + [Entry(v, n)];
      return true;
    }

    /** Records every pair, shifted by delta and clamped: no count is lost. */
    method RecordPairs(pairs: seq<Entry>, delta: Int64)
      requires Valid()
      modifies this, counts
      ensures Valid()
      ensures log == old(log) + Shifted(layout.highest, pairs, delta)
    {
      for i := 0 to |pairs|
        invariant Valid()
        invariant log == old(log) + Shifted(layout.highest, pairs[..i], delta)
      {
        ghost var before := Shifted(layout.highest, pairs[..i], delta);
        ShiftedStep(layout.highest, pairs, i, delta);
        var v, n := Clamp(Wrap(pairs[i].value + delta), layout.highest), pairs[i].count;
        Appended(old(log), before, Entry(v, n));
        var _ := RecordValueN(v, n);
      }
      assert pairs[..|pairs|] == pairs;
    }

    /** The occupied slots in ascending order, each once. */
    method Buckets() returns (r: seq<Entry>)
      requires Valid()
      ensures r == OccupiedBelow(layout, log, Slots(layout))
    {
      r := [];
      for bucketIdx := 0 to layout.buckets
        invariant r == OccupiedBelow(layout, log, BucketStart(layout, bucketIdx))
      {
        r := BucketRow(bucketIdx, r);
      }
    }

    /** Lists the occupied sub-buckets of one bucket. */
    method BucketRow(bucketIdx: nat, listed: seq<Entry>) returns (r: seq<Entry>)
      requires Valid() && bucketIdx < layout.buckets
      requires listed == OccupiedBelow(layout, log, BucketStart(layout, bucketIdx))
      ensures r == OccupiedBelow(layout, log, BucketStart(layout, bucketIdx + 1))
    {
      r := listed;
      var subLo := if bucketIdx > 0 then SubBucketHalfCount(layout) else 0;
      BucketRows(layout, bucketIdx);
      for i := subLo to SubBucketCount(layout)
        invariant CountsIndex(layout, bucketIdx, i) >= 0
        invariant r == OccupiedBelow(layout, log, CountsIndex(layout, bucketIdx, i))
      {
        OccupiedStep(layout, log, bucketIdx, i);
        var c := counts[..][CountsIndex(layout, bucketIdx, i)];
        if c != 0 {
          var median := ValueFromIndex(layout, bucketIdx, i) + RangeSize(layout, bucketIdx) / 2;
          r := r + [Entry(median, c)];
        }
      }
    }

    /** The weighted sample set a consumer sees, or none if nothing was recorded. */
    method Snapshot() returns (r: Option<seq<Entry>>)
      requires Valid()
      ensures r == SnapshotOf(layout, log)
    {
      if totalCount == 0 {
        return None;
      }
      var b := Buckets();
      return Some(b);
    }

    /**
     * The highest value of the slot that holds the rank-th smallest recorded value x: at least x,
     * and above it by less than x/10^sigfigs, or by less than one unit in the first bucket.
     */
    method ValueAtRank(rank: nat) returns (r: int)
      requires Valid()
      requires totalCount > 0 ==> 1 <= rank <= totalCount
      ensures totalCount == 0 ==> r == 0
      ensures totalCount > 0 ==> forall x: nat :: IsRank(log, rank, x) ==> TopOf(layout, x, r)
    {
      if totalCount == 0 {
        return 0;
      }
      var cum := 0;
      var bucketIdx := 0;
      FirstPair(layout);
      FirstSlot(layout);
      EmptyRange(log, 0);
      while bucketIdx < layout.buckets
        invariant 0 <= bucketIdx <= layout.buckets
        invariant cum == Weight(log, 0, Low(layout, BucketStart(layout, bucketIdx))) < rank
      {
        var i := if bucketIdx > 0 then SubBucketHalfCount(layout) else 0;
        BucketRows(layout, bucketIdx);
        while i < SubBucketCount(layout)
          invariant (if bucketIdx > 0 then SubBucketHalfCount(layout) else 0) <= i <= SubBucketCount(layout)
          invariant CountsIndex(layout, bucketIdx, i) >= 0
          invariant cum == Weight(log, 0, Low(layout, CountsIndex(layout, bucketIdx, i))) < rank
        {
          PairIsSlot(layout, bucketIdx, i);
          ghost var s: nat := CountsIndex(layout, bucketIdx, i);
          CumulativeStep(layout, log, s);
          cum := cum + counts[CountsIndex(layout, bucketIdx, i)];
          if cum >= rank {
            RankInSlot(layout, log, rank, s);
            return ValueFromIndex(layout, bucketIdx, i) + RangeSize(layout, bucketIdx) - 1;
          }
          i := i + 1;
        }
        bucketIdx := bucketIdx + 1;
      }
      SlotsCover(layout);
      WeightOfAll(layout, log, Low(layout, Slots(layout)));
      assert false;
    }
  }

  /** r is the top of the slot of x, and close to x. */
  predicate TopOf(l: Layout, x: nat, r: int)
    requires Sound(l)
  {
    && x <= l.highest
    && r == Low(l, SlotOf(l, x)) + Width(l, SlotOf(l, x)) - 1
    && x <= r
    && (Scale(Pow10(l.sigfigs), r - x) < x || (BucketOf(l, SlotOf(l, x)) == 0 && r - x < Shl(1, l.unit)))
  }

  /** The slot in which bucket k starts. */
  function BucketStart(l: Layout, k: nat): nat {
    if k == 0 then 0 else Shl(k + 1, l.half)
  }

  lemma FirstPair(l: Layout)
    ensures CountsIndex(l, 0, 0) == 0
  {
  }

  /** Bucket k's rows run from its start to the start of bucket k+1. */
  lemma BucketRows(l: Layout, k: nat)
    ensures CountsIndex(l, k, if k > 0 then SubBucketHalfCount(l) else 0) == BucketStart(l, k)
    ensures CountsIndex(l, k, SubBucketCount(l)) == BucketStart(l, k + 1)
  {
    ShlSum(k + 1, 1, l.half);
  }

  /** Listing one more sub-bucket. */
  lemma OccupiedStep(l: Layout, log: seq<Entry>, k: nat, i: nat)
    requires IsPair(l, k, i)
    ensures 0 <= CountsIndex(l, k, i) < Slots(l) && CountsIndex(l, k, i + 1) == CountsIndex(l, k, i) + 1
    ensures OccupiedBelow(l, log, CountsIndex(l, k, i + 1))
         == OccupiedBelow(l, log, CountsIndex(l, k, i))
            + (if SlotWeight(l, log, CountsIndex(l, k, i)) == 0 then []
               else [Entry(ValueFromIndex(l, k, i) + RangeSize(l, k) / 2, SlotWeight(l, log, CountsIndex(l, k, i)))])
  {
    PairIsSlot(l, k, i);
  }

  lemma RankInSlot(l: Layout, log: seq<Entry>, rank: nat, s: nat)
    requires Sound(l) && Recorded(l, log) && s < Slots(l)
    requires Weight(log, 0, Low(l, s)) < rank <= Weight(log, 0, Low(l, s + 1))
    ensures forall x: nat :: IsRank(log, rank, x) ==> TopOf(l, x, Low(l, s) + Width(l, s) - 1)
  {
    forall x: nat | IsRank(log, rank, x)
      ensures TopOf(l, x, Low(l, s) + Width(l, s) - 1)
    {
      RankTop(l, log, rank, s, x);
    }
  }

  lemma RankTop(l: Layout, log: seq<Entry>, rank: nat, s: nat, x: nat)
    requires Sound(l) && Recorded(l, log) && s < Slots(l)
    requires Weight(log, 0, Low(l, s)) < rank <= Weight(log, 0, Low(l, s + 1))
    requires IsRank(log, rank, x)
    ensures TopOf(l, x, Low(l, s) + Width(l, s) - 1)
  {
    SlotsAdjoin(l, s);
    if x < Low(l, s) {
      WeightSplit(log, 0, x + 1, Low(l, s));
    }
    if x >= Low(l, s + 1) {
      WeightSplit(log, 0, Low(l, s + 1), x);
    }
    WeightSplit(log, 0, x, x + 1);
    var i := WeightOfOccupied(log, x, x + 1);
    SlotUnique(l, s, SlotOf(l, x), x);
    Precision(l, s, x);
    ScaleLess(Pow10(l.sigfigs), Low(l, s) + Width(l, s) - 1 - x, Width(l, s));
  }

  lemma ScaleLess(p: nat, d: nat, w: nat)
    requires d < w
    ensures p > 0 ==> Scale(p, d) < Scale(p, w)
  {
  }
}
