/**
 * The canonical histogram layout, the store that keeps the sign of a sample, clock-offset
 * correction and merging (benchkit/store.go).
 */
module HistogramMerge {
  import opened HistogramLayout
  import opened HistogramLog
  import opened Histograms
  import opened Numbers
  import opened Requests

  const HIGHEST := 60_000_000_000
  const MIN_INT64 := -0x8000_0000_0000_0000

  /** Nanosecond resolution, a one minute ceiling, three significant figures. */
  function Canonical(): (l: Layout)
    ensures Sound(l) && l.highest == HIGHEST && l.unit == 0
  {
    CanonicalLayout();
    Layout(HIGHEST, 3, 0, 10, 26)
  }

  lemma CanonicalLayout()
    ensures Parameters(1, HIGHEST, 3)
    ensures LayoutOf(1, HIGHEST, 3) == Layout(HIGHEST, 3, 0, 10, 26)
    ensures Sound(Layout(HIGHEST, 3, 0, 10, 26))
  {
    assert Pow10(3) == 1000;
    assert Shl(1, 10) == 1024 && Shl(1, 11) == 2048;
    LargePowers();
    LenBound(1999, 11);
    LenBound(1999, 10);
    LenBound(HIGHEST, 36);
    LenBound(HIGHEST, 35);
    assert Len(1) == 1;
  }

  lemma LargePowers()
    ensures Shl(1, 35) == 34_359_738_368 && Shl(1, 36) == 68_719_476_736
  {
    ShlShl(1, 9, 9);
    assert Shl(1, 9) == 512;
    assert Shl(512, 9) == 262_144;
    ShlShl(1, 18, 9);
    assert Shl(262_144, 9) == 134_217_728;
    ShlShl(1, 27, 8);
    assert Shl(134_217_728, 8) == 34_359_738_368;
  }

  method NewHdrHistogram() returns (h: Histogram)
    ensures fresh(h) && fresh(h.counts) && h.Valid() && h.log == [] && h.layout == Canonical()
  {
    CanonicalLayout();
    h := new Histogram(1, HIGHEST, 3);
  }

  // ---- replaying a snapshot ----

  /** The stand-in for an occupied slot, clamped, is counted in that slot again. */
  lemma ClampedMedian(l: Layout, log: seq<Entry>, s: nat)
    requires Sound(l) && Recorded(l, log) && l.highest <= HIGHEST && l.unit == 0
    requires s < Slots(l) && SlotWeight(l, log, s) > 0
    ensures Wrap(Median(l, s)) == Median(l, s)
    ensures InSlot(l, s, Clamp(Median(l, s), l.highest))
  {
    var i := WeightOfOccupied(log, Low(l, s), Low(l, s) + Width(l, s));
    var v := log[i].value;
    Precision(l, s, v);
    if BucketOf(l, s) > 0 {
      ScaleGrows(Pow10(l.sigfigs), Width(l, s));
    }
  }

  lemma ScaleGrows(p: nat, w: nat)
    requires p >= 1
    ensures w <= Scale(p, w)
  {
  }

  lemma ShiftedAppend(highest: nat, pairs: seq<Entry>, e: Entry, delta: int)
    requires e.count > 0
    ensures Shifted(highest, pairs + [e], delta)
         == Shifted(highest, pairs, delta) + [Entry(Clamp(Wrap(e.value + delta), highest), e.count)]
  {
    Last(pairs, e);
  }

  /** Replaying the slots below s counts the same in each of them, and nothing elsewhere. */
  lemma {:induction false} ReplayBelow(l: Layout, log: seq<Entry>, s: nat, t: nat)
    requires Sound(l) && Recorded(l, log) && l.highest <= HIGHEST && l.unit == 0 && s <= Slots(l)
    ensures SlotWeight(l, Shifted(l.highest, OccupiedBelow(l, log, s), 0), t)
         == if t < s then SlotWeight(l, log, t) else 0
  {
    if s > 0 {
      var below := OccupiedBelow(l, log, s - 1);
      var w := SlotWeight(l, log, s - 1);
      ReplayBelow(l, log, s - 1, t);
      if w == 0 {
        assert below + [] == below;
      } else {
        var e := Entry(Clamp(Median(l, s - 1), l.highest), w);
        ClampedMedian(l, log, s - 1);
        ShiftedAppend(l.highest, below, Entry(Median(l, s - 1), w), 0);
        SlotWeightAppend(l, Shifted(l.highest, below, 0), e, t);
        if InSlot(l, t, e.value) {
          SlotUnique(l, t, s - 1, e.value);
        }
      }
    }
  }

  lemma {:induction false} ShiftedRecorded(l: Layout, pairs: seq<Entry>, delta: int)
    ensures Recorded(l, Shifted(l.highest, pairs, delta))
    ensures Total(Shifted(l.highest, pairs, delta)) == Total(pairs)
  {
    if pairs != [] {
      var rest, e := pairs[..|pairs| - 1], pairs[|pairs| - 1];
      ShiftedRecorded(l, rest, delta);
      if e.count == 0 {
        assert Shifted(l.highest, rest, delta) + [] == Shifted(l.highest, rest, delta);
      } else {
        Last(Shifted(l.highest, rest, delta), Entry(Clamp(Wrap(e.value + delta), l.highest), e.count));
      }
    }
  }

  /** Two recorded logs whose slots count the same have the same snapshot. */
  lemma SameSlotsSameSnapshot(l: Layout, xs: seq<Entry>, ys: seq<Entry>)
    requires Sound(l) && Recorded(l, xs) && Recorded(l, ys)
    requires forall t :: 0 <= t < Slots(l) ==> SlotWeight(l, xs, t) == SlotWeight(l, ys, t)
    ensures SnapshotOf(l, xs) == SnapshotOf(l, ys)
  {
    OccupiedEqual(l, xs, ys, Slots(l));
    SlotsCover(l);
    WeightOfAll(l, xs, Low(l, Slots(l)));
    WeightOfAll(l, ys, Low(l, Slots(l)));
    TotalOfOccupied(l, xs, Slots(l));
    TotalOfOccupied(l, ys, Slots(l));
  }

  // ---- merging ----

  type Snap = Option<seq<Entry>>

  /** What a merge records: the pairs of every snapshot that is present. */
  function Replay(hists: seq<Snap>): seq<Entry> {
    if hists == [] then [] else
      var last := hists[|hists| - 1];
      Replay(hists[..|hists| - 1]) + (if last.None? then [] else Shifted(HIGHEST, last.value, 0))
  }

  method MergeHistograms(hists: seq<Snap>) returns (r: Snap)
    ensures r == SnapshotOf(Canonical(), Replay(hists))
  {
    var h := NewHdrHistogram();
    for i := 0 to |hists|
      invariant fresh(h) && fresh(h.counts) && h.Valid() && h.layout == Canonical()
      invariant h.log == Replay(hists[..i])
    {
      assert hists[..i + 1][..i] == hists[..i];
      if hists[i].Some? {
        h.RecordPairs(hists[i].value, 0);
      }
    }
    assert hists[..|hists|] == hists;
    r := h.Snapshot();
  }

  function Snapshots(logs: seq<seq<Entry>>): seq<Snap> {
    if logs == [] then [] else
      Snapshots(logs[..|logs| - 1]) + [SnapshotOf(Canonical(), logs[|logs| - 1])]
  }

  function Concat(logs: seq<seq<Entry>>): seq<Entry> {
    if logs == [] then [] else Concat(logs[..|logs| - 1]) + logs[|logs| - 1]
  }

  lemma {:induction false} ConcatRecorded(l: Layout, logs: seq<seq<Entry>>)
    requires forall i :: 0 <= i < |logs| ==> Recorded(l, logs[i])
    ensures Recorded(l, Concat(logs))
  {
    if logs != [] {
      ConcatRecorded(l, logs[..|logs| - 1]);
    }
  }

  lemma {:induction false} ReplayRecorded(hists: seq<Snap>)
    ensures Recorded(Canonical(), Replay(hists))
  {
    if hists != [] {
      ReplayRecorded(hists[..|hists| - 1]);
      if hists[|hists| - 1].Some? {
        ShiftedRecorded(Canonical(), hists[|hists| - 1].value, 0);
      }
    }
  }

  /** A replayed snapshot counts in every slot what the histogram recorded there. */
  lemma ReplayOne(log: seq<Entry>, t: nat)
    requires Recorded(Canonical(), log) && t < Slots(Canonical())
    ensures var snap := SnapshotOf(Canonical(), log);
            SlotWeight(Canonical(), if snap.None? then [] else Shifted(HIGHEST, snap.value, 0), t)
            == SlotWeight(Canonical(), log, t)
  {
    if Total(log) == 0 {
      NothingRecorded(Canonical(), log);
    } else {
      ReplayBelow(Canonical(), log, Slots(Canonical()), t);
    }
  }

  lemma NothingRecorded(l: Layout, log: seq<Entry>)
    requires Recorded(l, log) && Total(log) == 0
    ensures log == []
  {
  }

  lemma {:induction false} ReplaySlots(logs: seq<seq<Entry>>, t: nat)
    requires forall i :: 0 <= i < |logs| ==> Recorded(Canonical(), logs[i])
    requires t < Slots(Canonical())
    ensures SlotWeight(Canonical(), Replay(Snapshots(logs)), t) == SlotWeight(Canonical(), Concat(logs), t)
  {
    if logs != [] {
      var rest, log := logs[..|logs| - 1], logs[|logs| - 1];
      var snap := SnapshotOf(Canonical(), log);
      ReplaySlots(rest, t);
      ReplayOne(log, t);
      SlotWeightConcat(Canonical(), Concat(rest), log, t);
      var replayed := if snap.None? then [] else Shifted(HIGHEST, snap.value, 0);
      SlotWeightConcat(Canonical(), Replay(Snapshots(rest)), replayed, t);
      assert (Snapshots(rest) + [snap])[..|Snapshots(rest)|] == Snapshots(rest);
    }
  }

  lemma SlotWeightConcat(l: Layout, xs: seq<Entry>, ys: seq<Entry>, t: nat)
    ensures SlotWeight(l, xs + ys, t) == SlotWeight(l, xs, t) + SlotWeight(l, ys, t)
  {
    WeightConcat(xs, ys, Low(l, t), Low(l, t) + Width(l, t));
  }

  /** Merging snapshots equals the snapshot of one histogram that recorded everything. */
  lemma MergeEqualsRecordingAll(logs: seq<seq<Entry>>)
    requires forall i :: 0 <= i < |logs| ==> Recorded(Canonical(), logs[i])
    ensures SnapshotOf(Canonical(), Replay(Snapshots(logs))) == SnapshotOf(Canonical(), Concat(logs))
  {
    ConcatRecorded(Canonical(), logs);
    ReplayRecorded(Snapshots(logs));
    forall t | 0 <= t < Slots(Canonical())
      ensures SlotWeight(Canonical(), Replay(Snapshots(logs)), t) == SlotWeight(Canonical(), Concat(logs), t)
    {
      ReplaySlots(logs, t);
    }
    SameSlotsSameSnapshot(Canonical(), Replay(Snapshots(logs)), Concat(logs));
  }

  /** Re-quantizing a snapshot gives the same snapshot. */
  lemma RequantizingIsAFixedPoint(log: seq<Entry>)
    requires Recorded(Canonical(), log)
    ensures SnapshotOf(Canonical(), Replay([SnapshotOf(Canonical(), log)])) == SnapshotOf(Canonical(), log)
  {
    MergeEqualsRecordingAll([log]);
    assert [log][..0] == [];
    assert Concat([log]) == log;
    assert Snapshots([log]) == [SnapshotOf(Canonical(), log)];
  }

  // ---- clock-offset correction ----

  /** Re-quantizes with delta added to every value; no count is lost. */
  method OffsetHistogram(src: Snap, delta: Int64) returns (r: Snap)
    ensures src.None? ==> r == None
    ensures src.Some? ==> r == SnapshotOf(Canonical(), Shifted(HIGHEST, src.value, delta))
    ensures src.Some? ==> (if r.Some? then Total(r.value) else 0) == Total(src.value)
  {
    if src.None? {
      return None;
    }
    var h := NewHdrHistogram();
    h.RecordPairs(src.value, delta);
    ShiftedRecorded(Canonical(), src.value, delta);
    SnapshotKeepsTotal(Canonical(), Shifted(HIGHEST, src.value, delta));
    assert [] + Shifted(HIGHEST, src.value, delta) == Shifted(HIGHEST, src.value, delta);
    r := h.Snapshot();
  }
}
