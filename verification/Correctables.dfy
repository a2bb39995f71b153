/**
 * Correctable calls (internal/impl/correctable.go): a result that improves as replies arrive, and
 * channels that close when it reaches a level. Every Watch and every update holds the lock, so a
 * run is a sequence of them.
 */
module Correctables {
  import opened Requests
  import opened Quorums

  const LEVEL_NOT_SET := -1

  datatype Watcher = Watcher(level: int, ch: nat)

  /** `closes[ch]` and `doneCloses` count how often a channel was closed. */
  datatype State<T> = State(reply: Option<T>, level: int, err: Option<CallError>, done: bool,
                            watchers: seq<Option<Watcher>>, closes: seq<nat>, doneCloses: nat)

  // ---- the steps ----

  /** A new channel, closed at once if the level is reached or the call completed. */
  function Watched<T>(s: State<T>, level: int): State<T> {
    if s.done || level <= s.level
    then s.(closes := s.closes + [1])
    else s.(closes := s.closes + [0], watchers := s.watchers + [Some(Watcher(level, |s.closes|))])
  }

  predicate Hit(w: Option<Watcher>, level: int, done: bool) {
    w.Some? && (done || w.value.level <= level)
  }

  /** The close counts after closing the first n watchers that are hit. */
  function ClosesAfter(watchers: seq<Option<Watcher>>, closes: seq<nat>, level: int, done: bool, n: nat): (r: seq<nat>)
    requires n <= |watchers| && InRange(watchers, closes)
    ensures |r| == |closes|
  {
    if n == 0 then closes else
      var r := ClosesAfter(watchers, closes, level, done, n - 1);
      if Hit(watchers[n - 1], level, done)
      then r[watchers[n - 1].value.ch := r[watchers[n - 1].value.ch] + 1]
      else r
  }

  predicate InRange(watchers: seq<Option<Watcher>>, closes: seq<nat>) {
    forall i :: 0 <= i < |watchers| && watchers[i].Some? ==> watchers[i].value.ch < |closes|
  }

  /** The watchers left: those hit are dropped, unless the call is over. */
  function WatchersAfter(watchers: seq<Option<Watcher>>, level: int, done: bool, n: nat): (r: seq<Option<Watcher>>)
    requires n <= |watchers|
    ensures |r| == |watchers|
    ensures forall i :: 0 <= i < |r| ==>
              r[i] == if i < n && !done && Hit(watchers[i], level, done) then None else watchers[i]
  {
    seq(|watchers|, i requires 0 <= i < |watchers| =>
      if i < n && !done && Hit(watchers[i], level, done) then None else watchers[i])
  }

  function Updated<T>(s: State<T>, reply: Option<T>, level: int, done: bool, err: Option<CallError>): State<T>
    requires InRange(s.watchers, s.closes)
  {
    State(reply, level, err, done, WatchersAfter(s.watchers, level, done, |s.watchers|),
          ClosesAfter(s.watchers, s.closes, level, done, |s.watchers|), if done then s.doneCloses + 1 else s.doneCloses)
  }

  // ---- the class ----

  class Correctable<T> {
    var reply: Option<T>
    var level: int
    var err: Option<CallError>
    var done: bool
    var watchers: seq<Option<Watcher>>
    var closes: seq<nat>
    var doneCloses: nat

    function View(): State<T>
      reads this
    {
      State(reply, level, err, done, watchers, closes, doneCloses)
    }

    constructor ()
      ensures View() == Fresh()
    {
      reply, level, err, done := None, LEVEL_NOT_SET, None, false;
      watchers, closes, doneCloses := [], [], 0;
    }

    method Watch(level: int) returns (ch: nat)
      modifies this
      ensures View() == Watched(old(View()), level) && ch == |old(closes)|
    {
      ch := |closes|;
      closes := closes + [0];
      if done || level <= this.level {
        closes := closes[ch := closes[ch] + 1];
        assert closes == old(closes) + [1];
        return;
      }
      watchers := watchers + [Some(Watcher(level, ch))];
    }

    /** Not called on a completed call, on which the source panics. */
    method Update(reply: Option<T>, level: int, done: bool, err: Option<CallError>)
      requires !this.done && InRange(watchers, closes)
      modifies this
      ensures View() == Updated(old(View()), reply, level, done, err)
    {
      this.reply, this.level, this.err, this.done := reply, level, err, done;
      if done {
        doneCloses := doneCloses + 1;
        CloseAll();
        return;
      }
      CloseReached();
    }

    /** Closes the channel of every watcher that is left. */
    method CloseAll()
      requires done && InRange(watchers, closes)
      modifies this`closes
      ensures closes == ClosesAfter(watchers, old(closes), level, done, |watchers|)
      ensures watchers == WatchersAfter(watchers, level, done, |watchers|)
    {
      for i := 0 to |watchers|
        invariant closes == ClosesAfter(watchers, old(closes), level, done, i)
      {
        if watchers[i].Some? {
          closes := closes[watchers[i].value.ch := closes[watchers[i].value.ch] + 1];
        }
      }
    }

    /** Closes the channels of the watchers whose level is reached, and drops those watchers. */
    method CloseReached()
      requires !done && InRange(watchers, closes)
      modifies this`closes, this`watchers
      ensures closes == ClosesAfter(old(watchers), old(closes), level, done, |old(watchers)|)
      ensures watchers == WatchersAfter(old(watchers), level, done, |old(watchers)|)
    {
      ghost var ws := watchers;
      assert WatchersAfter(ws, level, done, 0) == ws;
      for i := 0 to |watchers|
        invariant watchers == WatchersAfter(ws, level, done, i)
        invariant closes == ClosesAfter(ws, old(closes), level, done, i)
      {
        if watchers[i].Some? && watchers[i].value.level <= level {
          closes := closes[watchers[i].value.ch := closes[watchers[i].value.ch] + 1];
          watchers := watchers[i := None];
        }
        assert watchers == WatchersAfter(ws, level, done, i + 1);
      }
    }
  }

  function Fresh<T>(): State<T> {
    State(None, LEVEL_NOT_SET, None, false, [], [], 0)
  }

  // ---- what every state keeps ----

  /** A channel was asked for level l: closed exactly once the level is reached or the call is over. */
  function Expected<T>(s: State<T>, l: int): nat {
    if s.done || l <= s.level then 1 else 0
  }

  /** The watchers are the open channels, each once. */
  ghost predicate Listed<T>(s: State<T>, asked: seq<int>) {
    && (forall i :: 0 <= i < |s.watchers| && s.watchers[i].Some? ==>
          var w := s.watchers[i].value; w.ch < |asked| && asked[w.ch] == w.level && s.level < w.level)
    && (forall i, j :: 0 <= i < j < |s.watchers| && s.watchers[i].Some? && s.watchers[j].Some? ==>
          s.watchers[i].value.ch != s.watchers[j].value.ch)
    && (forall ch :: 0 <= ch < |asked| && s.level < asked[ch] ==>
          exists i :: 0 <= i < |s.watchers| && s.watchers[i] == Some(Watcher(asked[ch], ch)))
  }

  ghost predicate Valid<T>(s: State<T>, asked: seq<int>) {
    && |s.closes| == |asked|
    && (forall ch :: 0 <= ch < |asked| ==> s.closes[ch] == Expected(s, asked[ch]))
    && s.doneCloses == (if s.done then 1 else 0)
    && (!s.done ==> Listed(s, asked))
  }

  lemma WatchKeeps<T>(s: State<T>, asked: seq<int>, level: int)
    requires Valid(s, asked)
    ensures Valid(Watched(s, level), asked + [level])
  {
    var s', asked' := Watched(s, level), asked + [level];
    if !s.done {
      forall ch | 0 <= ch < |asked'| && s'.level < asked'[ch]
        ensures exists i :: 0 <= i < |s'.watchers| && s'.watchers[i] == Some(Watcher(asked'[ch], ch))
      {
        if ch < |asked| {
          var i :| 0 <= i < |s.watchers| && s.watchers[i] == Some(Watcher(asked[ch], ch));
          assert s'.watchers[i] == Some(Watcher(asked'[ch], ch));
        } else {
          assert s'.watchers[|s.watchers|] == Some(Watcher(level, ch));
        }
      }
    }
  }

  /** Closing the hit watchers adds one to the channel of each of them. */
  lemma {:induction false} ClosesOf<T>(s: State<T>, asked: seq<int>, level: int, done: bool, n: nat, ch: nat)
    requires Valid(s, asked) && !s.done && n <= |s.watchers| && ch < |asked|
    ensures InRange(s.watchers, s.closes)
    ensures ClosesAfter(s.watchers, s.closes, level, done, n)[ch] == s.closes[ch]
            + (if exists i :: 0 <= i < n && Hit(s.watchers[i], level, done) && s.watchers[i].value.ch == ch
               then 1 else 0)
  {
    if n > 0 {
      ClosesOf(s, asked, level, done, n - 1, ch);
    }
  }

  /** A level that grows, or completion, closes exactly the channels it should. */
  lemma UpdateKeeps<T>(s: State<T>, asked: seq<int>, reply: Option<T>, level: int, done: bool, err: Option<CallError>)
    requires Valid(s, asked) && !s.done && s.level <= level
    ensures InRange(s.watchers, s.closes)
    ensures Valid(Updated(s, reply, level, done, err), asked)
  {
    var s' := Updated(s, reply, level, done, err);
    forall ch | 0 <= ch < |asked|
      ensures s'.closes[ch] == Expected(s', asked[ch])
    {
      ClosesOf(s, asked, level, done, |s.watchers|, ch);
      if s.level < asked[ch] {
        var i :| 0 <= i < |s.watchers| && s.watchers[i] == Some(Watcher(asked[ch], ch));
        assert Hit(s.watchers[i], level, done) <==> done || asked[ch] <= level;
      }
    }
    if !done {
      UpdateLists(s, asked, reply, level, err);
    }
  }

  lemma UpdateLists<T>(s: State<T>, asked: seq<int>, reply: Option<T>, level: int, err: Option<CallError>)
    requires Valid(s, asked) && !s.done && s.level <= level && InRange(s.watchers, s.closes)
    ensures Listed(Updated(s, reply, level, false, err), asked)
  {
    var s' := Updated(s, reply, level, false, err);
    forall ch | 0 <= ch < |asked| && s'.level < asked[ch]
      ensures exists i :: 0 <= i < |s'.watchers| && s'.watchers[i] == Some(Watcher(asked[ch], ch))
    {
      var i :| 0 <= i < |s.watchers| && s.watchers[i] == Some(Watcher(asked[ch], ch));
      assert s'.watchers[i] == Some(Watcher(asked[ch], ch));
    }
  }

  // ---- runs ----

  /** A step of the call's goroutine, or a caller's Watch. */
  datatype Op<T> = Watch(level: int) | Next(response: Response<T>) | End

  datatype Call<T> = Call(s: State<T>, threshold: int, count: nat, errs: seq<NodeError>, last: Option<T>,
                          running: bool, asked: seq<int>)

  predicate Enabled<T>(c: Call<T>, op: Op<T>) {
    op.Watch? || c.running
  }

  function Start<T>(threshold: int): Call<T> {
    Call(Fresh(), threshold, 0, [], None, true, [])
  }

  /** A call that cannot be sent completes at once with its error. */
  function StartFailed<T>(threshold: int, err: CallError): Call<T> {
    Call(Updated(Fresh(), None, LEVEL_NOT_SET, true, Some(err)), threshold, 0, [], None, false, [])
  }

  function After<T>(c: Call<T>, op: Op<T>): Call<T>
    requires InRange(c.s.watchers, c.s.closes)
  {
    match op
    case Watch(level) => c.(s := Watched(c.s, level), asked := c.asked + [level])
    case End => c.(s := Updated(c.s, c.last, c.count, true, Some(Incomplete(c.errs))), running := false)
    case Next(r) =>
      match r.outcome
      case Skipped => c
      case Failure(e) => c.(errs := c.errs + [NodeError(r.node, e)])
      case Reply(value) =>
        var count := c.count + 1;
        var done := count >= c.threshold;
        c.(s := Updated(c.s, Some(value), count, done, None), count := count, last := Some(value), running := !done)
  }

  /** The goroutine updates only a call that is not complete, and ends with the right outcome. */
  ghost predicate Sound<T>(c: Call<T>) {
    && Valid(c.s, c.asked) && InRange(c.s.watchers, c.s.closes)
    && (c.running <==> !c.s.done)
    && LEVEL_NOT_SET <= c.s.level <= c.count
    && (c.running ==> c.count < c.threshold && c.s.err.None?)
  }

  /** A completed call has no error exactly if as many replies as the threshold arrived. */
  predicate RightOutcome<T>(c: Call<T>) {
    c.s.done ==> (c.s.err.None? <==> c.count >= c.threshold)
  }

  lemma StepKeeps<T>(c: Call<T>, op: Op<T>)
    requires Sound(c) && RightOutcome(c) && Enabled(c, op)
    ensures Sound(After(c, op)) && RightOutcome(After(c, op))
    ensures c.s.level <= After(c, op).s.level
    ensures c.s.done ==> After(c, op).s.done && After(c, op).s.err == c.s.err && After(c, op).s.reply == c.s.reply
  {
    match op
    case Watch(level) => WatchKeeps(c.s, c.asked, level);
    case End => UpdateKeeps(c.s, c.asked, c.last, c.count, true, Some(Incomplete(c.errs)));
    case Next(r) =>
      if r.outcome.Reply? {
        var count := c.count + 1;
        UpdateKeeps(c.s, c.asked, Some(r.outcome.value), count, count >= c.threshold, None);
      }
  }

  predicate Initial<T(==)>(c: Call<T>) {
    && c.threshold > 0
    && (c == Start(c.threshold) || (c.s.err.Some? && c == StartFailed(c.threshold, c.s.err.value)))
  }

  lemma InitialSound<T>(c: Call<T>)
    requires Initial(c)
    ensures Sound(c) && RightOutcome(c) && c.count == 0
  {
    var first: State<T> := Fresh();
    assert Valid(first, []);
    UpdateKeeps(first, [], None, LEVEL_NOT_SET, true, c.s.err);
  }

  /** How many of the first n steps were replies. */
  function Replies<T>(ops: seq<Op<T>>, n: nat): nat
    requires n <= |ops|
  {
    if n == 0 then 0 else
      Replies(ops, n - 1) + (if ops[n - 1].Next? && ops[n - 1].response.outcome.Reply? then 1 else 0)
  }

  /** Every state of a run, from a started call or one that failed to start. */
  ghost predicate IsRun<T>(calls: seq<Call<T>>, ops: seq<Op<T>>) {
    && |calls| == |ops| + 1
    && Initial(calls[0])
    && forall i {:trigger ops[i]} :: 0 <= i < |ops| ==>
         && Enabled(calls[i], ops[i]) && InRange(calls[i].s.watchers, calls[i].s.closes)
         && calls[i + 1] == After(calls[i], ops[i])
  }

  lemma RunStep<T>(calls: seq<Call<T>>, ops: seq<Op<T>>, i: nat)
    requires IsRun(calls, ops) && i < |ops|
    ensures Enabled(calls[i], ops[i]) && InRange(calls[i].s.watchers, calls[i].s.closes)
    ensures calls[i + 1] == After(calls[i], ops[i])
  {
  }

  lemma StepCounts<T>(c: Call<T>, op: Op<T>)
    requires InRange(c.s.watchers, c.s.closes)
    ensures After(c, op).threshold == c.threshold
    ensures After(c, op).count == c.count + (if op.Next? && op.response.outcome.Reply? then 1 else 0)
  {
  }

  lemma {:induction false} RunCounts<T>(calls: seq<Call<T>>, ops: seq<Op<T>>, n: nat)
    requires IsRun(calls, ops) && n < |calls|
    ensures calls[n].count == Replies(ops, n) && calls[n].threshold == calls[0].threshold
  {
    if n == 0 {
      InitialSound(calls[0]);
    } else {
      RunCounts(calls, ops, n - 1);
      RunStep(calls, ops, n - 1);
      StepCounts(calls[n - 1], ops[n - 1]);
    }
  }

  lemma {:induction false} RunKeeps<T>(calls: seq<Call<T>>, ops: seq<Op<T>>, n: nat)
    requires IsRun(calls, ops) && n < |calls|
    ensures Sound(calls[n]) && RightOutcome(calls[n])
  {
    if n == 0 {
      InitialSound(calls[0]);
    } else {
      RunKeeps(calls, ops, n - 1);
      RunStep(calls, ops, n - 1);
      StepKeeps(calls[n - 1], ops[n - 1]);
    }
  }

  /**
   * Each watcher's channel is closed at most once, and exactly once its level is reached or the
   * call completed; completion happens once, without error exactly if the threshold was reached.
   */
  lemma WatchersAndCompletion<T>(calls: seq<Call<T>>, ops: seq<Op<T>>, n: nat)
    requires IsRun(calls, ops) && n < |calls|
    ensures var c := calls[n];
            && |c.s.closes| == |c.asked|
            && (forall ch :: 0 <= ch < |c.asked| ==> c.s.closes[ch] <= 1)
            && (forall ch :: 0 <= ch < |c.asked| ==>
                  (c.s.closes[ch] == 1 <==> c.s.done || c.asked[ch] <= c.s.level))
            && c.s.doneCloses == (if c.s.done then 1 else 0)
            && (c.s.done ==> (c.s.err.None? <==> Replies(ops, n) >= calls[0].threshold))
  {
    RunKeeps(calls, ops, n);
    RunCounts(calls, ops, n);
  }

  /** The level never decreases, and a completed call keeps its outcome. */
  lemma {:induction false} LevelGrows<T>(calls: seq<Call<T>>, ops: seq<Op<T>>, m: nat, n: nat)
    requires IsRun(calls, ops) && m <= n < |calls|
    ensures calls[m].s.level <= calls[n].s.level
    ensures calls[m].s.done ==>
              calls[n].s.done && calls[n].s.err == calls[m].s.err && calls[n].s.reply == calls[m].s.reply
    decreases n
  {
    if m < n {
      LevelGrows(calls, ops, m, n - 1);
      RunKeeps(calls, ops, n - 1);
      RunStep(calls, ops, n - 1);
      StepKeeps(calls[n - 1], ops[n - 1]);
    }
  }
}
