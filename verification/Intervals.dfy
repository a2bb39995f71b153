/**
 * Interval op accounting (benchkit/stats.go, ticker.go and summary.go): a ticker turns recorded
 * operations into interval events, and the summary drops the intervals of the warm-up.
 */
module Intervals {
  import opened Requests
  import opened Moments

  /** An event of the run: an interval's ops, or anything else. */
  datatype Event = Throughput(offset: int, ops: nat, duration: int) | OtherEvent(offset: int)

  // ---- Stats ----

  /** The recorded samples, the moments of the open interval, and op counts now and at its start. */
  datatype Counters = Counters(samples: seq<int>, interval: Moments, opCount: nat, iOpStart: nat)

  function Recorded(c: Counters, ns: int): Counters {
    c.(samples := c.samples + [ns], interval := Added(c.interval, ns as real), opCount := c.opCount + 1)
  }

  function Counted(c: Counters): Counters {
    c.(opCount := c.opCount + 1)
  }

  function Ticked(c: Counters): Counters {
    c.(interval := EMPTY, iOpStart := c.opCount)
  }

  class Stats {
    var samples: seq<int>
    var interval: Moments
    var opCount: nat
    var iOpStart: nat

    function View(): Counters
      reads this
    {
      Counters(samples, interval, opCount, iOpStart)
    }

    constructor ()
      ensures View() == Counters([], EMPTY, 0, 0)
    {
      samples, interval, opCount, iOpStart := [], EMPTY, 0, 0;
    }

    method AddLatency(ns: int)
      modifies this
      ensures View() == Recorded(old(View()), ns)
    {
      samples := samples + [ns];
      IntervalUpdate(ns);
    }

    method IntervalUpdate(ns: int)
      modifies this
      ensures samples == old(samples) && iOpStart == old(iOpStart)
      ensures opCount == old(opCount) + 1 && interval == Added(old(interval), ns as real)
    {
      opCount := opCount + 1;
      interval := Added(interval, ns as real);
    }

    method AddOp()
      modifies this
      ensures View() == Counted(old(View()))
    {
      opCount := opCount + 1;
    }

    /** Reports the interval and starts the next one. */
    method TickInterval() returns (moments: Moments, opDelta: nat)
      requires iOpStart <= opCount
      modifies this
      ensures moments == old(interval) && opDelta == old(opCount) - old(iOpStart)
      ensures View() == Ticked(old(View()))
    {
      moments := interval;
      opDelta := opCount - iOpStart;
      interval := EMPTY;
      iOpStart := opCount;
    }
  }

  // ---- runs of a benchmark ----

  /** An interval that the ticker has read and not yet emitted. */
  datatype Reading = Reading(ops: nat, count: nat)

  /** `tags[i]` is the interval in which the i-th op was recorded; `clock` is the ticker's last reading. */
  datatype State = State(stats: Counters, tags: seq<nat>, ticks: nat, clock: int, hand: Option<Reading>,
                         events: seq<Event>, stopped: bool)

  const START := State(Counters([], EMPTY, 0, 0), [], 0, 0, None, [OtherEvent(0)], false)

  datatype Op =
    | AddLatency(ns: int)
    | AddOp
    | Tick
    | Emit(offset: int, duration: int)
    | Flush(offset: int, duration: int)

  /** The ticker goroutine reads a clock that does not go back. */
  predicate Enabled(s: State, op: Op) {
    match op
    case AddLatency(_) => true
    case AddOp => true
    case Tick => !s.stopped && s.hand.None?
    case Emit(offset, _) => !s.stopped && s.hand.Some? && offset >= s.clock
    case Flush(offset, _) => !s.stopped && s.hand.Some? && offset >= s.clock
  }

  function Emitted(s: State, offset: int, duration: int): seq<Event>
    requires s.hand.Some?
  {
    s.events + [Throughput(offset, s.hand.value.ops, duration)]
    + (if s.hand.value.count > 0 then [OtherEvent(offset)] else [])
  }

  /** One locked step of a recording goroutine, or one step of the ticker goroutine. */
  function After(s: State, op: Op): State
    requires Enabled(s, op) && s.stats.iOpStart <= s.stats.opCount
  {
    match op
    case AddLatency(ns) =>
      s.(stats := Recorded(s.stats, ns), tags := s.tags + [s.ticks])
    case AddOp =>
      s.(stats := Counted(s.stats), tags := s.tags + [s.ticks])
    case Tick =>
      s.(hand := Some(Reading(s.stats.opCount - s.stats.iOpStart, s.stats.interval.count)),
         stats := Ticked(s.stats), ticks := s.ticks + 1)
    case Emit(offset, duration) =>
      s.(events := Emitted(s, offset, duration), clock := offset, hand := None)
    case Flush(offset, duration) =>
      // The last, partial interval; an empty one emits nothing.
      if s.hand.value.ops == 0 && s.hand.value.count == 0
      then s.(hand := None, clock := offset, stopped := true)
      else s.(events := Emitted(s, offset, duration), clock := offset, hand := None, stopped := true)
  }

  ghost predicate IsRun(states: seq<State>, ops: seq<Op>) {
    && |states| == |ops| + 1 && states[0] == START
    && forall i {:trigger ops[i]} :: 0 <= i < |ops| ==>
         && states[i].stats.iOpStart <= states[i].stats.opCount
         && Enabled(states[i], ops[i]) && states[i + 1] == After(states[i], ops[i])
  }

  /** How many of the first n steps recorded an op without a sample. */
  function BareOps(ops: seq<Op>, n: nat): nat
    requires n <= |ops|
  {
    if n == 0 then 0 else BareOps(ops, n - 1) + (if ops[n - 1].AddOp? then 1 else 0)
  }

  /** The interval events, in emission order. */
  function Intervals(events: seq<Event>): seq<Event> {
    if events == [] then [] else
      Intervals(events[..|events| - 1]) + (if events[|events| - 1].Throughput? then [events[|events| - 1]] else [])
  }

  function OpsOf(events: seq<Event>): nat {
    if events == [] then 0 else
      OpsOf(events[..|events| - 1]) + (if events[|events| - 1].Throughput? then events[|events| - 1].ops else 0)
  }

  /** How many ops were recorded in interval t. */
  function TaggedWith(tags: seq<nat>, t: nat): nat {
    if tags == [] then 0 else TaggedWith(tags[..|tags| - 1], t) + (if tags[|tags| - 1] == t then 1 else 0)
  }

  predicate AllIntervals(events: seq<Event>) {
    forall i :: 0 <= i < |events| ==> events[i].Throughput?
  }

  predicate Ordered(tags: seq<nat>, ticks: nat) {
    && (forall i :: 0 <= i < |tags| ==> tags[i] <= ticks)
    && (forall i, j :: 0 <= i <= j < |tags| ==> tags[i] <= tags[j])
  }

  predicate InTimeOrder(xs: seq<Event>) {
    forall i, j :: 0 <= i < j < |xs| ==> xs[i].offset <= xs[j].offset
  }

  /** The intervals read so far count exactly the ops recorded in them, and are in time order. */
  ghost predicate Inv(s: State) {
    var xs := Intervals(s.events);
    && s.stats.opCount == |s.tags| && s.stats.iOpStart <= s.stats.opCount && Ordered(s.tags, s.ticks)
    && AllIntervals(xs) && |xs| <= s.ticks
    && InTimeOrder(xs) && (forall t :: 0 <= t < |xs| ==> xs[t].offset <= s.clock)
    && (forall t :: 0 <= t < |xs| ==> xs[t].ops == TaggedWith(s.tags, t))
    && (forall t :: |xs| <= t < s.ticks ==> s.hand.Some? || TaggedWith(s.tags, t) == 0)
    && (s.hand.Some? ==> |xs| + 1 == s.ticks && s.hand.value.ops == TaggedWith(s.tags, |xs|))
    && (s.hand.None? && !s.stopped ==> |xs| == s.ticks)
    && s.stats.opCount - s.stats.iOpStart == TaggedWith(s.tags, s.ticks)
    && OpsOf(s.events) + (if s.hand.Some? then s.hand.value.ops else 0) == s.stats.iOpStart
  }

  lemma TagAppend(tags: seq<nat>, t: nat, k: nat)
    ensures TaggedWith(tags + [k], t) == TaggedWith(tags, t) + (if t == k then 1 else 0)
  {
    assert (tags + [k])[..|tags|] == tags;
  }

  lemma EventAppend(events: seq<Event>, e: Event)
    ensures Intervals(events + [e]) == Intervals(events) + (if e.Throughput? then [e] else [])
    ensures OpsOf(events + [e]) == OpsOf(events) + (if e.Throughput? then e.ops else 0)
  {
    assert (events + [e])[..|events|] == events;
  }

  lemma EmittedIs(s: State, offset: int, duration: int)
    requires s.hand.Some?
    ensures Intervals(Emitted(s, offset, duration))
         == Intervals(s.events) + [Throughput(offset, s.hand.value.ops, duration)]
    ensures OpsOf(Emitted(s, offset, duration)) == OpsOf(s.events) + s.hand.value.ops
  {
    var e := Throughput(offset, s.hand.value.ops, duration);
    EventAppend(s.events, e);
    EventAppend(s.events + [e], OtherEvent(offset));
    if s.hand.value.count == 0 {
      assert Emitted(s, offset, duration) == s.events + [e];
    }
  }

  lemma {:induction false} NoLaterTags(tags: seq<nat>, ticks: nat, t: nat)
    requires Ordered(tags, ticks) && t > ticks
    ensures TaggedWith(tags, t) == 0
  {
    if tags != [] {
      NoLaterTags(tags[..|tags| - 1], ticks, t);
    }
  }

  lemma AddKeeps(s: State, op: Op)
    requires Inv(s) && (op.AddLatency? || op.AddOp?)
    ensures Inv(After(s, op))
  {
    forall t: nat
      ensures TaggedWith(s.tags + [s.ticks], t) == TaggedWith(s.tags, t) + (if t == s.ticks then 1 else 0)
    {
      TagAppend(s.tags, t, s.ticks);
    }
  }

  lemma StepKeeps(s: State, op: Op)
    requires Inv(s) && Enabled(s, op)
    ensures Inv(After(s, op))
  {
    match op
    case AddLatency(_) => AddKeeps(s, op);
    case AddOp => AddKeeps(s, op);
    case Tick => NoLaterTags(s.tags, s.ticks, s.ticks + 1);
    case Emit(offset, duration) => EmitKeeps(s, offset, duration, s.stopped);
    case Flush(offset, duration) =>
      if !(s.hand.value.ops == 0 && s.hand.value.count == 0) {
        EmitKeeps(s, offset, duration, true);
      }
  }

  lemma EmitKeeps(s: State, offset: int, duration: int, stopped: bool)
    requires Inv(s) && s.hand.Some? && offset >= s.clock
    ensures Inv(s.(events := Emitted(s, offset, duration), clock := offset, hand := None, stopped := stopped))
  {
    var s' := s.(events := Emitted(s, offset, duration), clock := offset, hand := None, stopped := stopped);
    var xs, e := Intervals(s.events), Throughput(offset, s.hand.value.ops, duration);
    EmittedIs(s, offset, duration);
    assert Intervals(s'.events) == xs + [e];
    forall t | 0 <= t < |xs| + 1
      ensures (xs + [e])[t].Throughput? && (xs + [e])[t].ops == TaggedWith(s.tags, t)
    {
    }
  }

  lemma {:induction false} RunKeeps(states: seq<State>, ops: seq<Op>, n: nat)
    requires IsRun(states, ops) && n < |states|
    ensures Inv(states[n])
  {
    if n == 0 {
      assert [OtherEvent(0)][..0] == [];
    } else {
      RunKeeps(states, ops, n - 1);
      RunStep(states, ops, n - 1);
      StepKeeps(states[n - 1], ops[n - 1]);
    }
  }

  lemma RunStep(states: seq<State>, ops: seq<Op>, i: nat)
    requires IsRun(states, ops) && i < |ops|
    ensures states[i].stats.iOpStart <= states[i].stats.opCount && Enabled(states[i], ops[i])
    ensures states[i + 1] == After(states[i], ops[i])
  {
  }

  lemma {:induction false} RunCounts(states: seq<State>, ops: seq<Op>, n: nat)
    requires IsRun(states, ops) && n < |states|
    ensures states[n].stats.opCount == |states[n].stats.samples| + BareOps(ops, n)
  {
    if n > 0 {
      RunCounts(states, ops, n - 1);
      RunStep(states, ops, n - 1);
    }
  }

  /**
   * Emitted ops, the interval being emitted and the open interval add up to the samples recorded
   * and the ops counted without one; in a client-measured run there are none of the latter.
   */
  lemma OpsAreConserved(states: seq<State>, ops: seq<Op>, n: nat)
    requires IsRun(states, ops) && n < |states|
    ensures var s := states[n];
            OpsOf(s.events) + (if s.hand.Some? then s.hand.value.ops else 0) + (s.stats.opCount - s.stats.iOpStart)
            == |s.stats.samples| + BareOps(ops, n)
  {
    RunKeeps(states, ops, n);
    RunCounts(states, ops, n);
  }

  // ---- the summary's cut ----

  /** The ops of the intervals before trim, and of the others. */
  function CutOps(events: seq<Event>, trim: int): nat {
    if events == [] then 0 else
      var e := events[|events| - 1];
      CutOps(events[..|events| - 1], trim) + (if e.Throughput? && e.offset < trim then e.ops else 0)
  }

  function KeptOps(events: seq<Event>, trim: int): nat {
    if events == [] then 0 else
      var e := events[|events| - 1];
      KeptOps(events[..|events| - 1], trim) + (if e.Throughput? && e.offset >= trim then e.ops else 0)
  }

  function KeptDuration(events: seq<Event>, trim: int): int {
    if events == [] then 0 else
      var e := events[|events| - 1];
      KeptDuration(events[..|events| - 1], trim) + (if e.Throughput? && e.offset >= trim then e.duration else 0)
  }

  /** The ops per second of the kept intervals, leaving out those without a duration. */
  function Throughputs(events: seq<Event>, trim: int): seq<real> {
    if events == [] then [] else
      var e := events[|events| - 1];
      Throughputs(events[..|events| - 1], trim)
      + (if e.Throughput? && e.offset >= trim && e.duration > 0 then [PerSecond(e.ops, e.duration)] else [])
  }

  function PerSecond(ops: nat, duration: int): real
    requires duration > 0
  {
    ops as real / (duration as real / 1_000_000_000.0)
  }

  /** The square of the coefficient of variation: sample variance over the square of the mean. */
  function SquaredCoeffVar(xs: seq<real>): real {
    if |xs| < 2 || Mean(xs) == 0.0 then 0.0 else
      Deviation(xs, Mean(xs)) / (|xs| - 1) as real / (Mean(xs) * Mean(xs))
  }

  datatype Summary = Summary(throughput: real, squaredCV: real, cvValid: bool, latencies: seq<int>, latencyValid: bool)

  /** Statistics over the kept intervals, and the samples after the ops of the dropped ones. */
  method Summarize(latencies: seq<int>, events: seq<Event>, throughput: real, trim: int,
                   clientMeasured: bool, exact: bool)
    returns (r: Summary)
    ensures KeptDuration(events, trim) > 0 ==>
              r.throughput == PerSecond(KeptOps(events, trim), KeptDuration(events, trim))
    ensures KeptDuration(events, trim) <= 0 ==> r.throughput == throughput
    ensures r.cvValid <==> |Throughputs(events, trim)| >= 2
    ensures r.squaredCV == SquaredCoeffVar(Throughputs(events, trim))
    ensures clientMeasured && exact && CutOps(events, trim) <= |latencies| ==>
              r.latencies == latencies[CutOps(events, trim)..]
    ensures !(clientMeasured && exact) || CutOps(events, trim) > |latencies| ==> r.latencies == latencies
    ensures r.latencyValid == exact
  {
    if |events| == 0 {
      return Summary(throughput, 0.0, false, latencies, exact);
    }
    var keptOps, keptDur, cutOps := 0, 0, 0;
    var tputs := [];
    for i := 0 to |events|
      invariant keptOps == KeptOps(events[..i], trim) && keptDur == KeptDuration(events[..i], trim)
      invariant cutOps == CutOps(events[..i], trim) && tputs == Throughputs(events[..i], trim)
    {
      assert events[..i + 1][..i] == events[..i];
      var e := events[i];
      if !e.Throughput? {
        continue;
      }
      if e.offset < trim {
        cutOps := cutOps + e.ops;
        continue;
      }
      keptOps := keptOps + e.ops;
      keptDur := keptDur + e.duration;
      if e.duration > 0 {
        tputs := tputs + [PerSecond(e.ops, e.duration)];
      }
    }
    assert events[..|events|] == events;
    var tput := if keptDur > 0 then PerSecond(keptOps, keptDur) else throughput;
    var kept := latencies;
    if clientMeasured && exact && cutOps > 0 && cutOps <= |latencies| {
      kept := latencies[cutOps..];
    }
    return Summary(tput, SquaredCoeffVar(tputs), |tputs| >= 2, kept, exact);
  }

  /** The sample tagged t was recorded in an interval whose event lies before trim. */
  predicate Dropped(xs: seq<Event>, trim: int, t: nat) {
    t < |xs| && xs[t].offset < trim
  }

  /** The samples whose interval is not dropped, in order. */
  function KeptSamples(samples: seq<int>, tags: seq<nat>, xs: seq<Event>, trim: int): seq<int>
    requires |samples| == |tags|
  {
    if samples == [] then [] else
      KeptSamples(samples[..|samples| - 1], tags[..|tags| - 1], xs, trim)
      + (if Dropped(xs, trim, tags[|tags| - 1]) then [] else [samples[|samples| - 1]])
  }

  lemma {:induction false} KeptIsSuffix(samples: seq<int>, tags: seq<nat>, xs: seq<Event>, trim: int, c: nat)
    requires |samples| == |tags| && c <= |samples|
    requires forall i :: 0 <= i < |tags| ==> (Dropped(xs, trim, tags[i]) <==> i < c)
    ensures KeptSamples(samples, tags, xs, trim) == samples[c..]
  {
    if samples != [] {
      var n := |samples| - 1;
      if c == |samples| {
        KeptIsSuffix(samples[..n], tags[..n], xs, trim, n);
      } else {
        KeptIsSuffix(samples[..n], tags[..n], xs, trim, c);
        assert samples[c..] == samples[..n][c..] + [samples[n]];
      }
    }
  }

  /** How many samples were recorded before interval k. */
  function TaggedBelow(tags: seq<nat>, k: nat): (r: nat)
    ensures r <= |tags|
  {
    if tags == [] then 0 else TaggedBelow(tags[..|tags| - 1], k) + (if tags[|tags| - 1] < k then 1 else 0)
  }

  lemma {:induction false} TaggedBelowStep(tags: seq<nat>, k: nat)
    ensures TaggedBelow(tags, k + 1) == TaggedBelow(tags, k) + TaggedWith(tags, k)
  {
    if tags != [] {
      TaggedBelowStep(tags[..|tags| - 1], k);
    }
  }

  lemma {:induction false} TaggedBelowZero(tags: seq<nat>)
    ensures TaggedBelow(tags, 0) == 0
  {
    if tags != [] {
      TaggedBelowZero(tags[..|tags| - 1]);
    }
  }

  /** Tags in order: the samples recorded before interval k come first. */
  lemma {:induction false} TaggedPrefix(tags: seq<nat>, ticks: nat, k: nat)
    requires Ordered(tags, ticks)
    ensures forall i :: 0 <= i < |tags| ==> (tags[i] < k <==> i < TaggedBelow(tags, k))
  {
    if tags != [] {
      var n := |tags| - 1;
      TaggedPrefix(tags[..n], ticks, k);
      assert forall i :: 0 <= i < n ==> tags[..n][i] == tags[i];
      if tags[n] < k {
        assert forall i :: 0 <= i < n ==> tags[i] < k;
        AllBelow(tags[..n], k);
      }
    }
  }

  lemma {:induction false} AllBelow(tags: seq<nat>, k: nat)
    requires forall i :: 0 <= i < |tags| ==> tags[i] < k
    ensures TaggedBelow(tags, k) == |tags|
  {
    if tags != [] {
      AllBelow(tags[..|tags| - 1], k);
    }
  }

  lemma {:induction false} CutOfIntervals(events: seq<Event>, trim: int)
    ensures CutOps(Intervals(events), trim) == CutOps(events, trim)
  {
    if events != [] {
      var rest, e := events[..|events| - 1], events[|events| - 1];
      CutOfIntervals(rest, trim);
      if e.Throughput? {
        assert (Intervals(rest) + [e])[..|Intervals(rest)|] == Intervals(rest);
      } else {
        assert Intervals(rest) + [] == Intervals(rest);
      }
    }
  }

  /** In time order the dropped intervals come first, and hold as many ops as samples before the next. */
  lemma {:induction false} CutIsPrefix(xs: seq<Event>, tags: seq<nat>, trim: int, n: nat) returns (k: nat)
    requires AllIntervals(xs) && InTimeOrder(xs) && n <= |xs|
    requires forall t :: 0 <= t < |xs| ==> xs[t].ops == TaggedWith(tags, t)
    ensures k <= n && (forall t :: 0 <= t < n ==> (xs[t].offset < trim <==> t < k))
    ensures CutOps(xs[..n], trim) == TaggedBelow(tags, k)
  {
    if n == 0 {
      k := 0;
      TaggedBelowZero(tags);
    } else {
      k := CutIsPrefix(xs, tags, trim, n - 1);
      assert xs[..n][..n - 1] == xs[..n - 1];
      if xs[n - 1].offset < trim {
        assert forall t :: 0 <= t < n - 1 ==> xs[t].offset <= xs[n - 1].offset;
        TaggedBelowStep(tags, n - 1);
        k := n;
      }
    }
  }

  /** In every client-measured run the cut removes exactly the samples recorded in the dropped intervals. */
  lemma CutIsExact(states: seq<State>, ops: seq<Op>, n: nat, trim: int)
    requires IsRun(states, ops) && n < |states| && BareOps(ops, n) == 0
    ensures |states[n].tags| == |states[n].stats.samples|
    ensures CutOps(states[n].events, trim) <= |states[n].stats.samples|
    ensures states[n].stats.samples[CutOps(states[n].events, trim)..]
         == KeptSamples(states[n].stats.samples, states[n].tags, Intervals(states[n].events), trim)
  {
    var s := states[n];
    var xs := Intervals(s.events);
    RunKeeps(states, ops, n);
    RunCounts(states, ops, n);
    CutOfIntervals(s.events, trim);
    var k := CutIsPrefix(xs, s.tags, trim, |xs|);
    assert xs[..|xs|] == xs;
    TaggedPrefix(s.tags, s.ticks, k);
    KeptIsSuffix(s.stats.samples, s.tags, xs, trim, TaggedBelow(s.tags, k));
  }
}
