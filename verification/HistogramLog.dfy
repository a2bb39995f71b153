/**
 * What a histogram has recorded: weighted values, the weight of a range, and the snapshot that
 * the occupied slots give. These are the specification of the Histogram class.
 */
module HistogramLog {
  import opened HistogramLayout
  import opened Requests

  datatype Entry = Entry(value: int, count: nat)

  // ---- weights ----

  /** How many recorded values are in [lo, hi). */
  function Weight(log: seq<Entry>, lo: int, hi: int): nat {
    if log == [] then 0 else
      var e := log[|log| - 1];
      Weight(log[..|log| - 1], lo, hi) + (if lo <= e.value < hi then e.count else 0)
  }

  function Total(log: seq<Entry>): nat {
    if log == [] then 0 else Total(log[..|log| - 1]) + log[|log| - 1].count
  }

  /** Values that can be recorded: within the trackable range, at least once. */
  predicate Recorded(l: Layout, log: seq<Entry>) {
    forall i :: 0 <= i < |log| ==> 0 <= log[i].value <= l.highest && log[i].count > 0
  }

  lemma Last(log: seq<Entry>, e: Entry)
    ensures (log + [e])[..|log|] == log
  {
  }

  lemma {:induction false} WeightSplit(log: seq<Entry>, lo: int, mid: int, hi: int)
    requires lo <= mid <= hi
    ensures Weight(log, lo, hi) == Weight(log, lo, mid) + Weight(log, mid, hi)
  {
    if log != [] {
      WeightSplit(log[..|log| - 1], lo, mid, hi);
    }
  }

  lemma {:induction false} WeightConcat(xs: seq<Entry>, ys: seq<Entry>, lo: int, hi: int)
    ensures Weight(xs + ys, lo, hi) == Weight(xs, lo, hi) + Weight(ys, lo, hi)
  {
    if ys == [] {
      assert xs + ys == xs;
    } else {
      var zs := ys[..|ys| - 1];
      assert (xs + ys)[..|xs + ys| - 1] == xs + zs;
      WeightConcat(xs, zs, lo, hi);
    }
  }

  lemma {:induction false} TotalConcat(xs: seq<Entry>, ys: seq<Entry>)
    ensures Total(xs + ys) == Total(xs) + Total(ys)
  {
    if ys == [] {
      assert xs + ys == xs;
    } else {
      var zs := ys[..|ys| - 1];
      assert (xs + ys)[..|xs + ys| - 1] == xs + zs;
      TotalConcat(xs, zs);
    }
  }

  lemma {:induction false} WeightOfAll(l: Layout, log: seq<Entry>, hi: int)
    requires Recorded(l, log) && l.highest < hi
    ensures Weight(log, 0, hi) == Total(log)
  {
    if log != [] {
      WeightOfAll(l, log[..|log| - 1], hi);
    }
  }

  lemma {:induction false} WeightOfOccupied(log: seq<Entry>, lo: int, hi: int) returns (i: nat)
    requires Weight(log, lo, hi) > 0
    ensures i < |log| && lo <= log[i].value < hi
  {
    var e := log[|log| - 1];
    if lo <= e.value < hi {
      i := |log| - 1;
    } else {
      i := WeightOfOccupied(log[..|log| - 1], lo, hi);
    }
  }

  /** What slot s counts. */
  function SlotWeight(l: Layout, log: seq<Entry>, s: nat): nat {
    Weight(log, Low(l, s), Low(l, s) + Width(l, s))
  }

  lemma SlotWeightAppend(l: Layout, log: seq<Entry>, e: Entry, s: nat)
    ensures SlotWeight(l, log + [e], s) == SlotWeight(l, log, s)
            + (if e.value >= 0 && InSlot(l, s, e.value) then e.count else 0)
  {
    Last(log, e);
  }

  // ---- snapshots ----

  /** The middle of slot s, which stands for every value counted there. */
  function Median(l: Layout, s: nat): nat {
    Low(l, s) + Width(l, s) / 2
  }

  /** The occupied slots below s as weighted medians. */
  function OccupiedBelow(l: Layout, log: seq<Entry>, s: nat): seq<Entry> {
    if s == 0 then [] else
      OccupiedBelow(l, log, s - 1)
      + (if SlotWeight(l, log, s - 1) == 0 then [] else [Entry(Median(l, s - 1), SlotWeight(l, log, s - 1))])
  }

  /** The snapshot of a histogram that recorded log; none if it is empty. */
  function SnapshotOf(l: Layout, log: seq<Entry>): Option<seq<Entry>> {
    if Total(log) == 0 then None else Some(OccupiedBelow(l, log, Slots(l)))
  }

  /** A snapshot depends only on what the slots count. */
  lemma {:induction false} OccupiedEqual(l: Layout, xs: seq<Entry>, ys: seq<Entry>, s: nat)
    requires forall t :: 0 <= t < s ==> SlotWeight(l, xs, t) == SlotWeight(l, ys, t)
    ensures OccupiedBelow(l, xs, s) == OccupiedBelow(l, ys, s)
  {
    if s > 0 {
      OccupiedEqual(l, xs, ys, s - 1);
    }
  }

  /** The counts up to slot s. */
  lemma CumulativeStep(l: Layout, log: seq<Entry>, s: nat)
    ensures Weight(log, 0, Low(l, s + 1)) == Weight(log, 0, Low(l, s)) + SlotWeight(l, log, s)
  {
    SlotsAdjoin(l, s);
    WeightSplit(log, 0, Low(l, s), Low(l, s + 1));
  }

  /** All slots together cover the trackable range. */
  lemma SlotsCover(l: Layout)
    requires Sound(l)
    ensures Low(l, Slots(l)) > l.highest
  {
    var s := SlotOf(l, l.highest);
    LowMonotone(l, s, Slots(l));
  }

  lemma {:induction false} TotalOfOccupied(l: Layout, log: seq<Entry>, s: nat)
    ensures Total(OccupiedBelow(l, log, s)) == Weight(log, 0, Low(l, s))
  {
    if s == 0 {
      FirstSlot(l);
      EmptyRange(log, 0);
    } else {
      TotalOfOccupied(l, log, s - 1);
      CumulativeStep(l, log, s - 1);
      var below := OccupiedBelow(l, log, s - 1);
      if SlotWeight(l, log, s - 1) == 0 {
        assert below + [] == below;
      } else {
        Last(below, Entry(Median(l, s - 1), SlotWeight(l, log, s - 1)));
      }
    }
  }

  lemma {:induction false} EmptyRange(log: seq<Entry>, lo: int)
    ensures Weight(log, lo, lo) == 0
  {
    if log != [] {
      EmptyRange(log[..|log| - 1], lo);
    }
  }

  /** No count is lost: a snapshot holds as many samples as were recorded. */
  lemma SnapshotKeepsTotal(l: Layout, log: seq<Entry>)
    requires Sound(l) && Recorded(l, log)
    ensures SnapshotOf(l, log).Some? ==> Total(SnapshotOf(l, log).value) == Total(log)
  {
    SlotsCover(l);
    WeightOfAll(l, log, Low(l, Slots(l)));
    TotalOfOccupied(l, log, Slots(l));
  }

  // ---- ranks ----

  /** x is the rank-th smallest recorded value. */
  predicate IsRank(log: seq<Entry>, rank: nat, x: nat) {
    Weight(log, 0, x) < rank <= Weight(log, 0, x + 1)
  }

  /** Every rank up to the number of recorded values has a value, which was recorded. */
  lemma RankExists(l: Layout, log: seq<Entry>, rank: nat) returns (x: nat)
    requires Recorded(l, log) && 1 <= rank <= Total(log)
    ensures x <= l.highest && IsRank(log, rank, x) && exists i :: 0 <= i < |log| && log[i].value == x
  {
    WeightOfAll(l, log, l.highest + 1);
    x := RankBelow(log, rank, l.highest + 1);
    WeightSplit(log, 0, x, x + 1);
    var i := WeightOfOccupied(log, x, x + 1);
  }

  lemma {:induction false} RankBelow(log: seq<Entry>, rank: nat, hi: nat) returns (x: nat)
    requires 1 <= rank <= Weight(log, 0, hi)
    ensures x < hi && IsRank(log, rank, x)
  {
    EmptyRange(log, 0);
    if rank <= Weight(log, 0, hi - 1) {
      x := RankBelow(log, rank, hi - 1);
    } else {
      x := hi - 1;
    }
  }
}
