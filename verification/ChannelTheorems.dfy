/**
 * What holds in every run of an outbound channel, for every interleaving of its goroutines, every
 * result of the gRPC operations, and any number of streams.
 */
module ChannelTheorems {
  import opened Requests
  import opened PendingTable
  import opened ChannelState
  import opened ChannelSteps
  import opened ChannelPlaces
  import opened ChannelSessions
  import opened ChannelInvariant
  import opened ChannelAnswers
  import opened ChannelClose

  ghost predicate Inv(s: State) {
    && ProtocolOk(s) && AnswersOk(s) && CloseOk(s)
    && (exists loc :: Consistent(s, loc))
  }

  lemma InitInv(s: State)
    requires Init(s)
    ensures Inv(s)
  {
    assert Consistent(s, map[]);
  }

  lemma StepInv(s: State, a: Action, s': State)
    requires Inv(s) && Step(s, a, s')
    ensures Inv(s') && VerdictsFinal(s, s') && Grows(s, s')
  {
    var loc: map<Request, Place> :| Consistent(s, loc);
    var loc' := StepPlaces(s, a, s', loc);
    StepKeeps(s, a, s', loc);
    StepAnswers(s, a, s', loc);
    StepCloseKeeps(s, a, s');
  }

  lemma {:induction false} RunInv(states: seq<State>, actions: seq<Action>, n: nat)
    requires IsRun(states, actions) && n < |states|
    ensures Inv(states[n])
  {
    if n == 0 {
      InitInv(states[0]);
    } else {
      RunInv(states, actions, n - 1);
      StepInv(states[n - 1], actions[n - 1], states[n]);
    }
  }

  /** Every step of a run keeps what was settled and every verdict that is out. */
  lemma RunSteps(states: seq<State>, actions: seq<Action>, n: nat)
    requires IsRun(states, actions) && n < |actions|
    ensures Grows(states[n], states[n + 1]) && VerdictsFinal(states[n], states[n + 1])
    ensures states[n].close.CloseReturned? ==> states[n + 1].close.CloseReturned?
  {
    RunInv(states, actions, n);
    StepInv(states[n], actions[n], states[n + 1]);
    if states[n].close.CloseReturned? {
      CloseStays(states[n], actions[n], states[n + 1]);
    }
  }

  // ---- conservation ----

  ghost predicate OnlyAt(s: State, p: Place, r: Request) {
    At(s, p, r) && forall q :: At(s, q, r) ==> q == p
  }

  /**
   * Every request ever passed to Enqueue is in exactly one place, whatever streams were lost,
   * refused or handed over in between; and no place holds a request that nobody enqueued.
   */
  lemma OnePlace(states: seq<State>, actions: seq<Action>, n: nat, r: Request)
    requires IsRun(states, actions) && n < |states|
    ensures r in states[n].issued ==> exists p :: OnlyAt(states[n], p, r)
    ensures r !in states[n].issued ==> forall p :: !At(states[n], p, r)
    ensures Distinct(states[n].queue)
  {
    RunInv(states, actions, n);
    var s := states[n];
    var loc: map<Request, Place> :| Consistent(s, loc);
    if r in s.issued {
      assert At(s, loc[r], r);
      assert OnlyAt(s, loc[r], r);
    }
  }

  /**
   * A non-streaming request is answered at most once, an answered request has left the channel,
   * and a request with a response channel leaves unanswered only after its context ended.
   */
  lemma AnsweredAtMostOnce(states: seq<State>, actions: seq<Action>, n: nat, r: Request)
    requires IsRun(states, actions) && n < |states|
    ensures var s := states[n];
      && (!r.streaming ==> s.answers[r] <= 1)
      && (!r.streaming && s.answers[r] == 1 ==> OnlyAt(s, Settled, r))
      && (At(s, Settled, r) && r.hasChannel && s.answers[r] == 0 ==> r.id in s.ended)
      && (!r.hasChannel ==> s.answers[r] == 0)
  {
    RunInv(states, actions, n);
    var s := states[n];
    var loc: map<Request, Place> :| Consistent(s, loc);
    if r in s.answers && !r.streaming {
      assert At(s, Settled, r);
    }
  }

  /** What left the channel never comes back, and what was delivered stays delivered. */
  lemma {:induction false} SettledForGood(states: seq<State>, actions: seq<Action>, m: nat, n: nat)
    requires IsRun(states, actions) && m <= n < |states|
    ensures states[m].settled <= states[n].settled && states[m].answers <= states[n].answers
    decreases n
  {
    if m < n {
      SettledForGood(states, actions, m, n - 1);
      RunSteps(states, actions, n - 1);
    }
  }

  // ---- the verdict on a stream ----

  /** `verdict` is closed at most once, exactly once when receiving is over, and never both ways. */
  lemma VerdictClosedOnce(states: seq<State>, actions: seq<Action>, n: nat, k: nat)
    requires IsRun(states, actions) && n < |states| && k < |states[n].sessions|
    ensures var x := states[n].sessions[k];
      && x.verdicts <= 1
      && (x.receiver.ReceiverDone? ==> x.verdicts == 1)
      && !(x.accepted && x.refusal.Some?)
  {
    RunInv(states, actions, n);
    assert SessionOk(states[n].sessions[k], states[n].ended);
  }

  /** After `verdict` is closed, `refusal` never changes, so nobody reads it before it is set. */
  lemma {:induction false} RefusalSetBeforeVerdict(states: seq<State>, actions: seq<Action>, m: nat, n: nat, k: nat)
    requires IsRun(states, actions) && m <= n < |states|
    requires k < |states[m].sessions| && states[m].sessions[k].verdicts > 0
    ensures k < |states[n].sessions|
    ensures VerdictFinal(states[m].sessions[k], states[n].sessions[k])
    decreases n
  {
    if m < n {
      RefusalSetBeforeVerdict(states, actions, m, n - 1, k);
      RunSteps(states, actions, n - 1);
    }
  }

  /**
   * On a refused stream: the calls that return to the queue, or fail with another error than the
   * refusal, are calls that a broken send drained. Once receiving is over every other call sent on
   * the stream has failed with the refusal or its context has ended.
   */
  lemma RefusedCallsFail(states: seq<State>, actions: seq<Action>, n: nat, k: nat, e: Err)
    requires IsRun(states, actions) && n < |states| && k < |states[n].sessions|
    requires var x := states[n].sessions[k]; x.verdicts > 0 && x.refusal == Some(e)
    ensures var x := states[n].sessions[k];
      && x.requeued <= x.broken && (forall r <- x.failed :: r in x.broken || x.failed[r] == e)
      && (x.receiver.ReceiverDone? ==>
            forall r <- x.added ::
              r in x.broken || (r in x.failed && x.failed[r] == e) || r.id in states[n].ended)
  {
    RunInv(states, actions, n);
    var x := states[n].sessions[k];
    assert SessionOk(x, states[n].ended);
    if x.receiver.ReceiverDone? {
      forall r | r in x.added
        ensures r in x.broken || r in x.failed || r.id in states[n].ended
      {
        assert Accounted(x, states[n].ended, r);
      }
    }
  }

  /**
   * Nothing is drained unless a send broke with an error other than io.EOF, and then, on a refused
   * stream, only a non-streaming call returns to the queue, and none after ResourceExhausted.
   */
  lemma OnlyBrokenSendsRequeue(states: seq<State>, actions: seq<Action>, n: nat, k: nat)
    requires IsRun(states, actions) && n < |states| && k < |states[n].sessions|
    requires states[n].sessions[k].verdicts > 0 && states[n].sessions[k].refusal.Some?
    ensures var x := states[n].sessions[k];
      && (x.broken != {} ==> x.broke.Some? && x.broke.value != EndOfStream)
      && (x.requeued != {} ==> x.broke.Some? && x.broke.value != EndOfStream && x.broke.value != ResourceExhausted)
      && (forall r <- x.requeued :: !r.streaming)
  {
    RunInv(states, actions, n);
    assert SessionOk(states[n].sessions[k], states[n].ended);
  }

  // ---- draining ----

  /** The drain path ends a session only when its send loop has stopped and no call is pending. */
  lemma DrainEndsEmpty(states: seq<State>, actions: seq<Action>, n: nat, k: nat, i: nat)
    requires IsRun(states, actions) && n < |states| && k < |states[n].sessions|
    requires i < |states[n].sessions[k].checks|
    ensures var x := states[n].sessions[k]; var c := x.checks[i];
      && (c.Cancel? || c.Drain? || c.Dispose? ==> IsDrained(x))
      && CheckHolds(c) == {}
  {
    RunInv(states, actions, n);
    assert SessionOk(states[n].sessions[k], states[n].ended);
    assert CheckOk(states[n].sessions[k], states[n].sessions[k].checks[i]);
  }

  /** Once no endIfDrained call is outstanding, a drained session has ended. */
  lemma DrainedHasEnded(states: seq<State>, actions: seq<Action>, n: nat, k: nat)
    requires IsRun(states, actions) && n < |states| && k < |states[n].sessions|
    requires IsDrained(states[n].sessions[k]) && !Outstanding(states[n].sessions[k])
    ensures states[n].sessions[k].done
  {
    RunInv(states, actions, n);
    assert SessionOk(states[n].sessions[k], states[n].ended);
  }

  // ---- Close ----

  /** The queue and all tables are empty, and nothing but a call of Enqueue still holds a request. */
  ghost predicate ShutDown(s: State) {
    && s.queue == []
    && (forall k | 0 <= k < |s.sessions| :: s.sessions[k].table.calls == map[] && s.sessions[k].table.closed)
    && (forall r <- s.issued :: r in s.settled || (r in s.pushing && !s.pushing[r].Waiting?))
    && (forall r <- s.issued :: r in s.settled && r.hasChannel ==> r in s.answers || r.id in s.ended)
  }

  lemma ChecksHoldNothing(s: State, k: nat, i: nat)
    requires ProtocolOk(s) && k < |s.sessions| && i < |s.sessions[k].checks|
    ensures CheckHolds(s.sessions[k].checks[i]) == {}
  {
    assert SessionOk(s.sessions[k], s.ended);
    assert CheckOk(s.sessions[k], s.sessions[k].checks[i]);
  }

  lemma ReturnedTables(s: State, k: nat)
    requires ProtocolOk(s) && CloseOk(s) && s.close.CloseReturned? && k < |s.sessions|
    ensures s.sessions[k].table.calls == map[] && s.sessions[k].table.closed
    ensures ReceiverHolds(s.sessions[k].receiver) == {}
  {
    assert SessionOk(s.sessions[k], s.ended);
  }

  lemma ReturnedPlaces(s: State, r: Request, p: Place)
    requires ProtocolOk(s) && CloseOk(s) && s.close.CloseReturned? && At(s, p, r)
    ensures p == Settled || p == InPush
  {
    match p
    case InTable(k) => ReturnedTables(s, k);
    case InReceiver(k) => ReturnedTables(s, k);
    case InCheck(k, i) => ChecksHoldNothing(s, k, i);
    case _ =>
  }

  lemma ReturnedIsShutDown(s: State)
    requires Inv(s) && s.close.CloseReturned?
    ensures ShutDown(s)
  {
    var loc: map<Request, Place> :| Consistent(s, loc);
    forall k | 0 <= k < |s.sessions|
      ensures s.sessions[k].table.calls == map[] && s.sessions[k].table.closed
    {
      ReturnedTables(s, k);
    }
    forall r | r in s.issued
      ensures r in s.settled || (r in s.pushing && !s.pushing[r].Waiting?)
    {
      assert At(s, loc[r], r);
      ReturnedPlaces(s, r, loc[r]);
    }
  }

  lemma CloseStays(s: State, a: Action, s': State)
    requires Inv(s) && Step(s, a, s') && s.close.CloseReturned?
    ensures s'.close.CloseReturned?
  {
    match a
    case RunStep(b) => RunStepEffect(s, b, s');
    case ReceiverStep(k, b) => ReceiverEffect(s, k, b, s');
    case CheckStep(k, i, b) => CheckEffect(s, k, i, b, s');
    case _ =>
  }

  /**
   * Once Close has returned, in that state and in every later one, the send queue and all tables
   * are empty, and every request whose Enqueue is not still failing it has left the channel; one
   * with a response channel was answered, or its context has ended.
   */
  lemma {:induction false} ClosedForGood(states: seq<State>, actions: seq<Action>, m: nat, n: nat)
    requires IsRun(states, actions) && m <= n < |states| && states[m].close.CloseReturned?
    ensures states[n].close.CloseReturned? && ShutDown(states[n])
    decreases n
  {
    if m < n {
      ClosedForGood(states, actions, m, n - 1);
      RunSteps(states, actions, n - 1);
    }
    ReturnedAt(states, actions, n);
  }

  lemma ReturnedAt(states: seq<State>, actions: seq<Action>, n: nat)
    requires IsRun(states, actions) && n < |states| && states[n].close.CloseReturned?
    ensures ShutDown(states[n])
  {
    RunInv(states, actions, n);
    ReturnedIsShutDown(states[n]);
  }
}
