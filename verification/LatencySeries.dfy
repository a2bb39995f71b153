/**
 * Receive-time intervals of per-sender moments, their clock correction, and the merging of the
 * intervals that several servers report (benchkit/latency_series.go).
 */
module LatencySeries {
  import opened Moments
  import opened Requests
  import opened SortedIds

  datatype Sample = Sample(end: nat, sender: ID, ns: real)

  /** An interval event; the variance stands for the reported standard deviation squared. */
  datatype Event = Event(offset: nat, count: nat, mean: real, variance: real)

  // ---- the samples of a set of senders ----

  /** The samples of one interval from the given senders, in arrival order. */
  function From(log: seq<Sample>, end: nat, senders: set<ID>): seq<real> {
    if log == [] then [] else
      var s := log[|log| - 1];
      From(log[..|log| - 1], end, senders) + (if s.end == end && s.sender in senders then [s.ns] else [])
  }

  function OffsetOf(offsets: map<ID, real>, id: ID): real {
    if id in offsets then offsets[id] else 0.0
  }

  /** The same, with every sample corrected by its sender's clock offset. */
  function CorrectedFrom(log: seq<Sample>, offsets: map<ID, real>, end: nat, senders: set<ID>): seq<real> {
    if log == [] then [] else
      var s := log[|log| - 1];
      CorrectedFrom(log[..|log| - 1], offsets, end, senders)
      + (if s.end == end && s.sender in senders then [s.ns + OffsetOf(offsets, s.sender)] else [])
  }

  /** The senders heard in an interval, and the intervals that are occupied. */
  function SendersIn(log: seq<Sample>, end: nat): set<ID> {
    set i | 0 <= i < |log| && log[i].end == end :: log[i].sender
  }

  function Ends(log: seq<Sample>): set<nat> {
    set i | 0 <= i < |log| :: log[i].end
  }

  type Buckets = map<nat, map<ID, Moments>>

  function At(b: Buckets, end: nat, id: ID): Moments {
    if end in b && id in b[end] then b[end][id] else EMPTY
  }

  /** Occupied intervals and senders have an entry, and it holds the moments of their samples. */
  ghost predicate Describes(b: Buckets, log: seq<Sample>) {
    && b.Keys == Ends(log)
    && (forall end :: end in b ==> b[end].Keys == SendersIn(log, end))
    && (forall end, id :: At(b, end, id) == MomentsOf(From(log, end, {id})))
  }

  // ---- the class ----

  /** The exclusive upper bound of the interval that an offset lies in. */
  function EndOf(offset: nat, interval: nat): (end: nat)
    requires interval > 0
    ensures offset < end <= offset + interval && end == interval * (offset / interval + 1)
  {
    (offset - offset % interval) + interval
  }

  class Series {
    const interval: nat
    var buckets: Buckets
    ghost var log: seq<Sample>

    ghost predicate Valid()
      reads this
    {
      interval > 0 && Describes(buckets, log)
    }

    constructor (interval: nat)
      requires interval > 0
      ensures Valid() && log == [] && this.interval == interval
    {
      this.interval := interval;
      buckets := map[];
      log := [];
    }

    /** Adds a sample, received offset after the start, to its sender's moments; earlier ones are dropped. */
    method Add(offset: int, sender: ID, ns: real)
      requires Valid()
      modifies this
      ensures Valid()
      ensures log == if offset < 0 then old(log) else old(log) + [Sample(EndOf(offset, interval), sender, ns)]
    {
      if offset < 0 {
        return;
      }
      var end := EndOf(offset, interval);
      AddDescribes(buckets, log, Sample(end, sender, ns));
      var bySender: map<ID, Moments> := if end in buckets then buckets[end] else map[];
      var m := if sender in bySender then bySender[sender] else EMPTY;
      buckets := buckets[end := bySender[sender := Added(m, ns)]];
      log := log + [Sample(end, sender, ns)];
    }

    /** One event per occupied interval, in time order, with the corrected samples' moments. */
    method Corrected(offsets: map<ID, real>) returns (events: seq<Event>)
      requires Valid()
      ensures Lists(Offsets(events), Ends(log))
      ensures forall i :: 0 <= i < |events| ==>
                var end := events[i].offset;
                events[i] == EventOf(end, MomentsOf(CorrectedFrom(log, offsets, end, SendersIn(log, end))))
    {
      events := [];
      var ends := SortedKeys(buckets.Keys);
      for i := 0 to |ends|
        invariant Offsets(events) == ends[..i]
        invariant forall k :: 0 <= k < |events| ==>
                    var end := events[k].offset;
                    events[k] == EventOf(end, MomentsOf(CorrectedFrom(log, offsets, end, SendersIn(log, end))))
      {
        assert ends[i] in Elements(ends);
        var merged := CorrectedInterval(offsets, ends[i]);
        assert (events + [EventOf(ends[i], merged)])[..|events|] == events;
        events := events + [EventOf(ends[i], merged)];
      }
      assert ends[..|ends|] == ends;
    }

    /** The moments of one interval, each sender's mean shifted by its clock offset, merged. */
    method CorrectedInterval(offsets: map<ID, real>, end: nat) returns (merged: Moments)
      requires Valid() && end in buckets
      ensures merged == MomentsOf(CorrectedFrom(log, offsets, end, SendersIn(log, end)))
    {
      merged := EMPTY;
      var bySender := buckets[end];
      var ids := SortedKeys(bySender.Keys);
      InOrder(ids, bySender);
      for i := 0 to |ids|
        invariant merged == MergedInOrder(bySender, offsets, ids[..i])
      {
        assert ids[..i + 1][..i] == ids[..i];
        merged := Merged(merged, Shifted(bySender[ids[i]], OffsetOf(offsets, ids[i])));
      }
      assert ids[..|ids|] == ids;
      MergedInOrderIs(buckets, log, offsets, end, ids, |ids|);
    }
  }

  function Offsets(events: seq<Event>): seq<nat> {
    if events == [] then [] else Offsets(events[..|events| - 1]) + [events[|events| - 1].offset]
  }

  function MergedInOrder(bySender: map<ID, Moments>, offsets: map<ID, real>, ids: seq<ID>): Moments
    requires forall i :: 0 <= i < |ids| ==> ids[i] in bySender
  {
    if ids == [] then EMPTY else
      var id := ids[|ids| - 1];
      Merged(MergedInOrder(bySender, offsets, ids[..|ids| - 1]), Shifted(bySender[id], OffsetOf(offsets, id)))
  }

  lemma InOrder(ids: seq<ID>, bySender: map<ID, Moments>)
    requires Elements(ids) == bySender.Keys
    ensures forall i :: 0 <= i < |ids| ==> ids[i] in bySender
  {
    assert forall i :: 0 <= i < |ids| ==> ids[i] in Elements(ids);
  }

  /** Merging the senders' shifted moments gives the moments of the corrected samples. */
  lemma {:induction false} MergedInOrderIs(b: Buckets, log: seq<Sample>, offsets: map<ID, real>, end: nat,
                                           ids: seq<ID>, n: nat)
    requires Describes(b, log) && end in b && Lists(ids, b[end].Keys) && n <= |ids|
    ensures forall i :: 0 <= i < |ids| ==> ids[i] in b[end]
    ensures MergedInOrder(b[end], offsets, ids[..n]) == MomentsOf(CorrectedFrom(log, offsets, end, Elements(ids[..n])))
  {
    InOrder(ids, b[end]);
    if n == 0 {
      NoSenders(log, offsets, end);
      assert Elements(ids[..0]) == {};
    } else {
      var id := ids[n - 1];
      MergedInOrderIs(b, log, offsets, end, ids, n - 1);
      assert ids[..n][..n - 1] == ids[..n - 1] && ids[..n] == ids[..n - 1] + [id];
      ElementsAppend(ids[..n - 1], id);
      assert id !in Elements(ids[..n - 1]) && id in Elements(ids);
      HeardHasSamples(log, end, id);
      assert b[end][id] == At(b, end, id);
      MergeOneSender(log, offsets, end, Elements(ids[..n - 1]), id);
    }
  }

  method SortedKeys(keys: set<nat>) returns (r: seq<nat>)
    ensures Lists(r, keys)
  {
    var rest := keys;
    r := [];
    while rest != {}
      invariant rest <= keys && Elements(r) == keys - rest
      invariant forall i, j :: 0 <= i < j < |r| ==> r[i] != r[j]
      decreases |rest|
    {
      var k :| k in rest;
      ElementsAppend(r, k);
      assert k !in Elements(r);
      rest := rest - {k};
      r := r + [k];
    }
    r := SortById(r);
  }

  // ---- what adding a sample changes ----

  lemma EndsStep(log: seq<Sample>, s: Sample)
    ensures Ends(log + [s]) == Ends(log) + {s.end}
  {
    var all := log + [s];
    assert all[|log|] == s;
    assert forall i :: 0 <= i < |log| ==> all[i] == log[i];
  }

  lemma SendersStep(log: seq<Sample>, s: Sample, end: nat)
    ensures SendersIn(log + [s], end) == SendersIn(log, end) + (if end == s.end then {s.sender} else {})
  {
    var all := log + [s];
    assert all[|log|] == s;
    assert forall i :: 0 <= i < |log| ==> all[i] == log[i];
  }

  lemma FromStep(log: seq<Sample>, s: Sample, end: nat, ids: set<ID>)
    ensures From(log + [s], end, ids)
         == From(log, end, ids) + (if s.end == end && s.sender in ids then [s.ns] else [])
  {
    assert (log + [s])[..|log|] == log;
  }

  /** The buckets after one more sample. */
  function Entered(b: Buckets, s: Sample): Buckets {
    var bySender: map<ID, Moments> := if s.end in b then b[s.end] else map[];
    b[s.end := bySender[s.sender := Added(At(b, s.end, s.sender), s.ns)]]
  }

  lemma EnteredAt(b: Buckets, log: seq<Sample>, s: Sample, end: nat, id: ID)
    requires At(b, end, id) == MomentsOf(From(log, end, {id}))
    ensures At(Entered(b, s), end, id) == MomentsOf(From(log + [s], end, {id}))
  {
    FromStep(log, s, end, {id});
    if end == s.end && id == s.sender {
      AddIsBatch(From(log, end, {id}), s.ns);
    } else {
      assert At(Entered(b, s), end, id) == At(b, end, id);
      assert From(log, end, {id}) + [] == From(log, end, {id});
    }
  }

  lemma EnteredKeys(b: Buckets, log: seq<Sample>, s: Sample)
    requires b.Keys == Ends(log) && forall end :: end in b ==> b[end].Keys == SendersIn(log, end)
    ensures Entered(b, s).Keys == Ends(log + [s])
    ensures forall end :: end in Entered(b, s) ==> Entered(b, s)[end].Keys == SendersIn(log + [s], end)
  {
    EndsStep(log, s);
    forall end | end in Entered(b, s)
      ensures Entered(b, s)[end].Keys == SendersIn(log + [s], end)
    {
      SendersStep(log, s, end);
      SendersOfOthers(log, end);
    }
  }

  lemma AddDescribes(b: Buckets, log: seq<Sample>, s: Sample)
    requires Describes(b, log)
    ensures Describes(Entered(b, s), log + [s])
  {
    EnteredKeys(b, log, s);
    forall end, id
      ensures At(Entered(b, s), end, id) == MomentsOf(From(log + [s], end, {id}))
    {
      EnteredAt(b, log, s, end, id);
    }
  }

  lemma SendersOfOthers(log: seq<Sample>, end: nat)
    ensures end !in Ends(log) ==> SendersIn(log, end) == {}
  {
  }

  lemma {:induction false} HeardHasSamples(log: seq<Sample>, end: nat, id: ID)
    requires id in SendersIn(log, end)
    ensures From(log, end, {id}) != []
  {
    var rest, s := log[..|log| - 1], log[|log| - 1];
    SendersStep(rest, s, end);
    FromStep(rest, s, end, {id});
    assert rest + [s] == log;
    if id in SendersIn(rest, end) {
      HeardHasSamples(rest, end, id);
    }
  }

  lemma {:induction false} NoSenders(log: seq<Sample>, offsets: map<ID, real>, end: nat)
    ensures CorrectedFrom(log, offsets, end, {}) == []
  {
    if log != [] {
      NoSenders(log[..|log| - 1], offsets, end);
    }
  }

  // ---- correcting means per sender equals correcting samples ----

  lemma {:induction false} OneSenderCorrected(log: seq<Sample>, offsets: map<ID, real>, end: nat, id: ID)
    ensures CorrectedFrom(log, offsets, end, {id}) == Corrected(From(log, end, {id}), OffsetOf(offsets, id))
  {
    if log != [] {
      var rest, s := log[..|log| - 1], log[|log| - 1];
      OneSenderCorrected(rest, offsets, end, id);
      var xs := From(rest, end, {id});
      if s.end == end && s.sender == id {
        assert (xs + [s.ns])[..|xs|] == xs;
      } else {
        assert From(log, end, {id}) == xs;
        assert CorrectedFrom(log, offsets, end, {id}) == CorrectedFrom(rest, offsets, end, {id});
      }
    }
  }

  /** A sender's corrected samples add to those of other senders, whatever the arrival order. */
  lemma {:induction false} SenderJoins(log: seq<Sample>, offsets: map<ID, real>, end: nat, ids: set<ID>, id: ID,
                                       f: real -> real)
    requires id !in ids
    ensures var all, xs, ys := CorrectedFrom(log, offsets, end, ids + {id}), CorrectedFrom(log, offsets, end, ids),
                               CorrectedFrom(log, offsets, end, {id});
            |all| == |xs| + |ys| && SumOf(f, all) == SumOf(f, xs) + SumOf(f, ys)
  {
    if log != [] {
      SenderJoins(log[..|log| - 1], offsets, end, ids, id, f);
      CorrectedStep(log, offsets, end, ids + {id}, f);
      CorrectedStep(log, offsets, end, ids, f);
      CorrectedStep(log, offsets, end, {id}, f);
    }
  }

  /** What the last sample adds to a sum over the samples. */
  lemma CorrectedStep(log: seq<Sample>, offsets: map<ID, real>, end: nat, ids: set<ID>, f: real -> real)
    requires log != []
    ensures var s := log[|log| - 1];
            var xs, all := CorrectedFrom(log[..|log| - 1], offsets, end, ids), CorrectedFrom(log, offsets, end, ids);
            if s.end == end && s.sender in ids
            then |all| == |xs| + 1 && SumOf(f, all) == SumOf(f, xs) + f(s.ns + OffsetOf(offsets, s.sender))
            else all == xs
  {
    var s := log[|log| - 1];
    var xs := CorrectedFrom(log[..|log| - 1], offsets, end, ids);
    if s.end == end && s.sender in ids {
      var all := xs + [s.ns + OffsetOf(offsets, s.sender)];
      assert all[..|all| - 1] == xs;
    } else {
      assert xs + [] == xs;
    }
  }

  lemma MergeOneSender(log: seq<Sample>, offsets: map<ID, real>, end: nat, ids: set<ID>, id: ID)
    requires id !in ids && From(log, end, {id}) != []
    ensures Merged(MomentsOf(CorrectedFrom(log, offsets, end, ids)),
                   Shifted(MomentsOf(From(log, end, {id})), OffsetOf(offsets, id)))
         == MomentsOf(CorrectedFrom(log, offsets, end, ids + {id}))
  {
    var xs, ys := CorrectedFrom(log, offsets, end, ids), CorrectedFrom(log, offsets, end, {id});
    ShiftIsCorrection(From(log, end, {id}), OffsetOf(offsets, id));
    OneSenderCorrected(log, offsets, end, id);
    MergeIsConcatenation(xs, ys);
    SenderJoins(log, offsets, end, ids, id, Same);
    SenderJoins(log, offsets, end, ids, id, Square);
    SumOfConcat(Same, xs, ys);
    SumOfConcat(Square, xs, ys);
    SameSumsSameMoments(xs + ys, CorrectedFrom(log, offsets, end, ids + {id}));
  }

  // ---- events of several servers ----

  function EventOf(offset: nat, m: Moments): Event {
    Event(offset, m.count, m.mean, if m.count > 1 then m.m2 / (m.count - 1) as real else 0.0)
  }

  function OfEvent(e: Event): Moments
    requires e.count > 0
  {
    Moments(e.count, e.mean, e.variance * (e.count - 1) as real)
  }

  /** An event gives back the moments it was made from. */
  lemma EventRoundTrip(offset: nat, xs: seq<real>)
    requires xs != []
    ensures OfEvent(EventOf(offset, MomentsOf(xs))) == MomentsOf(xs)
  {
    if |xs| == 1 {
      OneSample(xs);
    } else {
      Quotient(MomentsOf(xs).m2, (|xs| - 1) as real);
    }
  }

  lemma OneSample(xs: seq<real>)
    requires |xs| == 1
    ensures MomentsOf(xs).m2 == 0.0
  {
    assert xs[..0] == [];
    assert Sum(xs) == xs[0];
    assert Mean(xs) == xs[0];
    assert Deviation(xs, xs[0]) == Deviation(xs[..0], xs[0]) + (xs[0] - xs[0]) * (xs[0] - xs[0]);
  }

  /** The events with samples at one offset, merged in the order given. */
  function MergedAt(events: seq<Event>, offset: nat): Moments {
    if events == [] then EMPTY else
      var e := events[|events| - 1];
      var m := MergedAt(events[..|events| - 1], offset);
      if e.count > 0 && e.offset == offset then Merged(m, OfEvent(e)) else m
  }

  function OffsetsOf(events: seq<Event>): set<nat> {
    set i | 0 <= i < |events| && events[i].count > 0 :: events[i].offset
  }

  lemma OffsetsStep(events: seq<Event>, n: nat)
    requires n < |events|
    ensures OffsetsOf(events[..n + 1])
         == OffsetsOf(events[..n]) + (if events[n].count > 0 then {events[n].offset} else {})
    ensures events[..n + 1][..n] == events[..n]
  {
    assert forall i :: 0 <= i < n ==> events[..n + 1][i] == events[..n][i];
    assert events[..n + 1][n] == events[n];
  }

  method MergeByOffset(events: seq<Event>) returns (buckets: map<nat, Moments>)
    ensures buckets.Keys == OffsetsOf(events)
    ensures forall offset :: offset in buckets ==> buckets[offset] == MergedAt(events, offset)
  {
    buckets := map[];
    for n := 0 to |events|
      invariant buckets.Keys == OffsetsOf(events[..n])
      invariant forall offset :: MergedAt(events[..n], offset) == if offset in buckets then buckets[offset] else EMPTY
    {
      OffsetsStep(events, n);
      var e := events[n];
      if e.count == 0 {
        continue;
      }
      var m := if e.offset in buckets then buckets[e.offset] else EMPTY;
      buckets := buckets[e.offset := Merged(m, OfEvent(e))];
    }
    assert events[..|events|] == events;
  }

  /** One event per occupied offset, in ascending order, holding the merged moments. */
  method MergeLatencyEvents(events: seq<Event>) returns (r: seq<Event>)
    ensures |r| == |OffsetsOf(events)|
    ensures forall i :: 0 <= i < |r| ==>
              r[i].offset in OffsetsOf(events) && r[i] == EventOf(r[i].offset, MergedAt(events, r[i].offset))
    ensures forall i, j :: 0 <= i < j < |r| ==> r[i].offset < r[j].offset
  {
    var buckets := MergeByOffset(events);
    var ends := SortedKeys(buckets.Keys);
    r := [];
    for i := 0 to |ends|
      invariant |r| == i
      invariant forall k :: 0 <= k < i ==> r[k] == EventOf(ends[k], MergedAt(events, ends[k]))
    {
      assert ends[i] in Elements(ends);
      r := r + [EventOf(ends[i], buckets[ends[i]])];
    }
    AscendingSize(ends);
    assert forall i :: 0 <= i < |ends| ==> ends[i] in Elements(ends);
  }

  lemma {:induction false} AscendingSize(s: seq<ID>)
    requires Ascending(s)
    ensures |Elements(s)| == |s|
  {
    if s != [] {
      var rest := s[..|s| - 1];
      AscendingSize(rest);
      ElementsAppend(rest, s[|s| - 1]);
      assert rest + [s[|s| - 1]] == s;
      assert s[|s| - 1] !in Elements(rest);
    }
  }

  /** What a server reports for one interval. */
  datatype Report = Report(offset: nat, samples: seq<real>)

  function EventsOf(reports: seq<Report>): seq<Event> {
    if reports == [] then [] else
      var last := reports[|reports| - 1];
      EventsOf(reports[..|reports| - 1]) + [EventOf(last.offset, MomentsOf(last.samples))]
  }

  function SamplesAt(reports: seq<Report>, offset: nat): seq<real> {
    if reports == [] then [] else
      var last := reports[|reports| - 1];
      SamplesAt(reports[..|reports| - 1], offset) + (if last.offset == offset then last.samples else [])
  }

  /** Merging the servers' events gives the moments of all their samples of the interval. */
  lemma {:induction false} MergedReports(reports: seq<Report>, offset: nat)
    ensures MergedAt(EventsOf(reports), offset) == MomentsOf(SamplesAt(reports, offset))
  {
    if reports != [] {
      var rest, last := reports[..|reports| - 1], reports[|reports| - 1];
      MergedReports(rest, offset);
      var e := EventOf(last.offset, MomentsOf(last.samples));
      assert (EventsOf(rest) + [e])[..|EventsOf(rest)|] == EventsOf(rest);
      if last.offset != offset || last.samples == [] {
        assert SamplesAt(reports, offset) == SamplesAt(rest, offset);
      } else {
        EventRoundTrip(last.offset, last.samples);
        MergeIsConcatenation(SamplesAt(rest, offset), last.samples);
      }
    }
  }
}
