/** The sample store of the HDR mode (hdrStore in benchkit/store.go). */
module HdrStores {
  import opened HistogramLayout
  import opened HistogramLog
  import opened Histograms
  import opened HistogramMerge
  import opened Numbers
  import opened Requests

  /** What the store records for non-negative samples, and for the magnitudes of negative ones. */
  function Positive(samples: seq<int>): seq<Entry> {
    if samples == [] then [] else
      var ns := samples[|samples| - 1];
      Positive(samples[..|samples| - 1]) + (if ns >= 0 then [Entry(Clamp(ns, HIGHEST), 1)] else [])
  }

  function Negative(samples: seq<int>): seq<Entry> {
    if samples == [] then [] else
      var ns := samples[|samples| - 1];
      Negative(samples[..|samples| - 1]) + (if MIN_INT64 < ns < 0 then [Entry(Clamp(-ns, HIGHEST), 1)] else [])
  }

  lemma PositiveStep(samples: seq<int>, ns: int)
    ensures Positive(samples + [ns]) == Positive(samples) + (if ns >= 0 then [Entry(Clamp(ns, HIGHEST), 1)] else [])
    ensures Negative(samples + [ns])
         == Negative(samples) + (if MIN_INT64 < ns < 0 then [Entry(Clamp(-ns, HIGHEST), 1)] else [])
  {
    assert (samples + [ns])[..|samples|] == samples;
  }

  /** How many samples are the least machine integer, whose magnitude is none. */
  function Unrepresentable(samples: seq<int>): nat {
    if samples == [] then 0 else
      Unrepresentable(samples[..|samples| - 1]) + (if samples[|samples| - 1] <= MIN_INT64 then 1 else 0)
  }

  lemma {:induction false} CountOfSamples(samples: seq<int>)
    ensures Total(Positive(samples)) + Total(Negative(samples)) == |samples| - Unrepresentable(samples)
  {
    if samples != [] {
      var rest, ns := samples[..|samples| - 1], samples[|samples| - 1];
      CountOfSamples(rest);
      TotalConcat(Positive(rest), if ns >= 0 then [Entry(Clamp(ns, HIGHEST), 1)] else []);
      TotalConcat(Negative(rest), if MIN_INT64 < ns < 0 then [Entry(Clamp(-ns, HIGHEST), 1)] else []);
    }
  }

  /** A magnitude is recorded, except that of the least machine integer, which is negative. */
  lemma Magnitude(samples: seq<int>, ns: Int64, magnitude: Int64)
    requires ns < 0 && magnitude == Wrap(-(ns as int))
    ensures var v := if magnitude < HIGHEST then magnitude else HIGHEST;
            && Positive(samples + [ns]) == Positive(samples)
            && Negative(samples + [ns]) == if 0 <= v then Negative(samples) + [Entry(v, 1)] else Negative(samples)
  {
    PositiveStep(samples, ns);
    assert Positive(samples) + [] == Positive(samples) && Negative(samples) + [] == Negative(samples);
  }

  lemma Plain(samples: seq<int>, ns: Int64)
    requires ns >= 0
    ensures var v := if ns < HIGHEST then ns else HIGHEST;
            && Positive(samples + [ns]) == Positive(samples) + [Entry(v, 1)]
            && Negative(samples + [ns]) == Negative(samples)
  {
    PositiveStep(samples, ns);
    assert Negative(samples) + [] == Negative(samples);
  }

  class HdrStore {
    const h: Histogram
    const neg: Histogram
    ghost var samples: seq<int>

    ghost predicate Valid()
      reads this, h, h.counts, neg, neg.counts
    {
      && h != neg && h.counts != neg.counts
      && h.Valid() && h.layout == Canonical() && h.log == Positive(samples)
      && neg.Valid() && neg.layout == Canonical() && neg.log == Negative(samples)
    }

    constructor ()
      ensures Valid() && samples == []
      ensures fresh(h) && fresh(h.counts) && fresh(neg) && fresh(neg.counts)
    {
      var x := NewHdrHistogram();
      var y := NewHdrHistogram();
      h, neg := x, y;
      samples := [];
    }

    /** Records a sample; only the least machine integer is not counted. */
    method Add(ns: Int64)
      requires Valid()
      modifies this, h, h.counts, neg, neg.counts
      ensures Valid() && samples == old(samples) + [ns]
    {
      if ns < 0 {
        AddNegative(ns);
      } else {
        AddPositive(ns);
      }
    }

    method AddPositive(ns: Int64)
      requires Valid() && ns >= 0
      modifies this, h, h.counts, neg, neg.counts
      ensures Valid() && samples == old(samples) + [ns]
    {
      Plain(samples, ns);
      var _ := h.RecordValueN(if ns < HIGHEST then ns else HIGHEST, 1);
      samples := samples + [ns];
    }

    /** The magnitude of a negative sample; that of the least machine integer wraps to itself. */
    method AddNegative(ns: Int64)
      requires Valid() && ns < 0
      modifies this, h, h.counts, neg, neg.counts
      ensures Valid() && samples == old(samples) + [ns]
    {
      var value: int := ns;
      var magnitude := Wrap(-value);
      Magnitude(samples, ns, magnitude);
      var _ := neg.RecordValueN(if magnitude < HIGHEST then magnitude else HIGHEST, 1);
      samples := samples + [ns];
    }

    /** The samples counted: all of them exactly if none is the least machine integer. */
    method Count() returns (n: nat)
      requires Valid()
      ensures n == |samples| - Unrepresentable(samples)
      ensures n == |samples| <==> forall i :: 0 <= i < |samples| ==> samples[i] > MIN_INT64
    {
      CountOfSamples(samples);
      AllRepresentable(samples);
      return h.totalCount + neg.totalCount;
    }

    /** The occupied slots of both histograms, negative values first, in ascending order. */
    method Buckets() returns (r: seq<Entry>)
      requires Valid()
      ensures r == Listing(h.layout, samples) && Ascending(r)
    {
      var below := neg.Buckets();
      var mirrored := MirrorList(below);
      var above := h.Buckets();
      r := mirrored + above;
      StoreAscending(samples);
    }

    /** The listing, or none if no sample was counted. */
    method Snapshot() returns (r: Snap)
      requires Valid()
      ensures r == StoreSnapshot(samples)
    {
      var n := Count();
      if n == 0 {
        return None;
      }
      var b := Buckets();
      return Some(b);
    }
  }

  /** What a store that recorded the samples reports. */
  function StoreSnapshot(samples: seq<int>): Snap {
    if |samples| == Unrepresentable(samples) then None else Some(Listing(Canonical(), samples))
  }

  method MirrorList(pairs: seq<Entry>) returns (r: seq<Entry>)
    ensures r == Mirror(pairs)
  {
    r := [];
    var i := |pairs|;
    while i > 0
      invariant 0 <= i <= |pairs|
      invariant r == Mirror(pairs[i..])
    {
      i := i - 1;
      assert pairs[i..] == [pairs[i]] + pairs[i + 1..];
      MirrorFirst(pairs[i], pairs[i + 1..]);
      r := r + [Entry(-pairs[i].value, pairs[i].count)];
    }
    assert pairs[0..] == pairs;
  }

  lemma {:induction false} AllRepresentable(samples: seq<int>)
    ensures Unrepresentable(samples) == 0 <==> forall i :: 0 <= i < |samples| ==> samples[i] > MIN_INT64
  {
    if samples != [] {
      var rest := samples[..|samples| - 1];
      AllRepresentable(rest);
      assert samples == rest + [samples[|samples| - 1]];
    }
  }

  /** The list reversed, with the sign of every value turned. */
  function Mirror(pairs: seq<Entry>): (r: seq<Entry>)
    ensures |r| == |pairs|
    ensures forall i :: 0 <= i < |r| ==>
              r[i] == Entry(-pairs[|pairs| - 1 - i].value, pairs[|pairs| - 1 - i].count)
  {
    seq(|pairs|, i requires 0 <= i < |pairs| =>
      Entry(-pairs[|pairs| - 1 - i].value, pairs[|pairs| - 1 - i].count))
  }

  function Listing(l: Layout, samples: seq<int>): seq<Entry> {
    Mirror(OccupiedBelow(l, Negative(samples), Slots(l))) + OccupiedBelow(l, Positive(samples), Slots(l))
  }

  lemma MirrorFirst(e: Entry, rest: seq<Entry>)
    ensures Mirror([e] + rest) == Mirror(rest) + [Entry(-e.value, e.count)]
  {
  }

  predicate Ascending(pairs: seq<Entry>) {
    forall i, j :: 0 <= i < j < |pairs| ==> pairs[i].value < pairs[j].value
  }

  /** A snapshot lists its values in strictly ascending order. */
  lemma {:induction false} SnapshotAscending(l: Layout, log: seq<Entry>, s: nat)
    ensures Ascending(OccupiedBelow(l, log, s))
    ensures forall i :: 0 <= i < |OccupiedBelow(l, log, s)| ==> 0 <= OccupiedBelow(l, log, s)[i].value < Low(l, s)
  {
    if s > 0 {
      SnapshotAscending(l, log, s - 1);
      SlotsAdjoin(l, s - 1);
    }
  }

  /** A negative sample's magnitude is never listed as zero. */
  lemma {:induction false} MagnitudesPositive(l: Layout, log: seq<Entry>, s: nat)
    requires forall i :: 0 <= i < |log| ==> log[i].value >= 1
    ensures forall i :: 0 <= i < |OccupiedBelow(l, log, s)| ==> OccupiedBelow(l, log, s)[i].value >= 1
  {
    if s > 0 {
      MagnitudesPositive(l, log, s - 1);
      if SlotWeight(l, log, s - 1) > 0 {
        var i := WeightOfOccupied(log, Low(l, s - 1), Low(l, s - 1) + Width(l, s - 1));
      }
    }
  }

  lemma {:induction false} NegativeMagnitudes(samples: seq<int>)
    ensures forall i :: 0 <= i < |Negative(samples)| ==> Negative(samples)[i].value >= 1
  {
    if samples != [] {
      NegativeMagnitudes(samples[..|samples| - 1]);
    }
  }

  lemma StoreAscending(samples: seq<int>)
    ensures Ascending(Listing(Canonical(), samples))
  {
    NegativeMagnitudes(samples);
    MagnitudesPositive(Canonical(), Negative(samples), Slots(Canonical()));
    SnapshotAscending(Canonical(), Negative(samples), Slots(Canonical()));
    SnapshotAscending(Canonical(), Positive(samples), Slots(Canonical()));
  }

  /** With no negative sample the store lists what its first histogram recorded. */
  lemma NonNegativeListing(l: Layout, samples: seq<int>)
    requires NonNegative(samples)
    ensures Listing(l, samples) == OccupiedBelow(l, Positive(samples), Slots(l))
  {
    NoNegatives(samples);
    NothingOccupied(l, Slots(l));
  }

  lemma {:induction false} NoNegatives(samples: seq<int>)
    requires NonNegative(samples)
    ensures Negative(samples) == []
  {
    if samples != [] {
      NoNegatives(samples[..|samples| - 1]);
    }
  }

  lemma {:induction false} NothingOccupied(l: Layout, s: nat)
    ensures OccupiedBelow(l, [], s) == []
  {
    if s > 0 {
      NothingOccupied(l, s - 1);
    }
  }

  // ---- merging what several stores measured ----

  function Flatten(runs: seq<seq<int>>): seq<int> {
    if runs == [] then [] else Flatten(runs[..|runs| - 1]) + runs[|runs| - 1]
  }

  function Logs(runs: seq<seq<int>>): seq<seq<Entry>> {
    if runs == [] then [] else Logs(runs[..|runs| - 1]) + [Positive(runs[|runs| - 1])]
  }

  function StoreSnapshots(runs: seq<seq<int>>): seq<Snap> {
    if runs == [] then [] else StoreSnapshots(runs[..|runs| - 1]) + [StoreSnapshot(runs[|runs| - 1])]
  }

  lemma {:induction false} PositiveConcat(xs: seq<int>, ys: seq<int>)
    ensures Positive(xs + ys) == Positive(xs) + Positive(ys)
  {
    if ys == [] {
      assert xs + ys == xs;
    } else {
      var zs := ys[..|ys| - 1];
      assert (xs + ys)[..|xs + ys| - 1] == xs + zs;
      PositiveConcat(xs, zs);
    }
  }

  lemma {:induction false} PositiveRecorded(samples: seq<int>)
    ensures Recorded(Canonical(), Positive(samples))
  {
    if samples != [] {
      PositiveRecorded(samples[..|samples| - 1]);
    }
  }

  lemma {:induction false} LogsConcat(runs: seq<seq<int>>)
    ensures Concat(Logs(runs)) == Positive(Flatten(runs))
    ensures forall i :: 0 <= i < |Logs(runs)| ==> Recorded(Canonical(), Logs(runs)[i])
  {
    if runs != [] {
      var rest, last := runs[..|runs| - 1], runs[|runs| - 1];
      LogsConcat(rest);
      PositiveConcat(Flatten(rest), last);
      PositiveRecorded(last);
      assert (Logs(rest) + [Positive(last)])[..|Logs(rest)|] == Logs(rest);
    }
  }

  predicate NonNegative(samples: seq<int>) {
    forall i :: 0 <= i < |samples| ==> samples[i] >= 0
  }

  /** A store of non-negative samples reports what its first histogram would. */
  lemma NonNegativeSnapshot(samples: seq<int>)
    requires NonNegative(samples)
    ensures StoreSnapshot(samples) == SnapshotOf(Canonical(), Positive(samples))
  {
    NonNegativeListing(Canonical(), samples);
    NoNegatives(samples);
    CountOfSamples(samples);
  }

  lemma {:induction false} SnapshotsOfStores(runs: seq<seq<int>>)
    requires forall i :: 0 <= i < |runs| ==> NonNegative(runs[i])
    ensures StoreSnapshots(runs) == Snapshots(Logs(runs)) && NonNegative(Flatten(runs))
  {
    if runs != [] {
      var rest, last := runs[..|runs| - 1], runs[|runs| - 1];
      SnapshotsOfStores(rest);
      NonNegativeSnapshot(last);
      assert (Logs(rest) + [Positive(last)])[..|Logs(rest)|] == Logs(rest);
    }
  }

  /**
   * Merging what any number of stores report equals the report of one store that recorded every
   * sample, for non-negative samples.
   */
  lemma MergeOfStores(runs: seq<seq<int>>)
    requires forall i :: 0 <= i < |runs| ==> NonNegative(runs[i])
    ensures SnapshotOf(Canonical(), Replay(StoreSnapshots(runs))) == StoreSnapshot(Flatten(runs))
  {
    SnapshotsOfStores(runs);
    LogsConcat(runs);
    MergeEqualsRecordingAll(Logs(runs));
    NonNegativeSnapshot(Flatten(runs));
  }
}
