/**
 * Exactly when a call pending on a refused stream can return to the queue: at a failed send, before
 * receiving ended, it can if and only if the error is neither io.EOF nor ResourceExhausted.
 */
module ChannelRefusals {
  import opened Requests
  import opened PendingTable
  import opened ChannelState
  import opened ChannelSteps
  import opened ChannelSessions
  import opened ChannelInvariant
  import opened ChannelClose
  import opened ChannelTheorems

  // ---- continuing a run ----

  function Last(states: seq<State>): State
    requires states != []
  {
    states[|states| - 1]
  }

  /** The second run goes on where the first one stops. */
  predicate Continues(states: seq<State>, actions: seq<Action>, states': seq<State>, actions': seq<Action>) {
    IsRun(states', actions') && states <= states' && actions <= actions'
  }

  lemma Extend(states: seq<State>, actions: seq<Action>, a: Action, s': State)
    requires IsRun(states, actions) && Step(Last(states), a, s')
    ensures IsRun(states + [s'], actions + [a])
  {
    var states', actions' := states + [s'], actions + [a];
    forall i {:trigger actions'[i]} | 0 <= i < |actions'|
      ensures Step(states'[i], actions'[i], states'[i + 1])
    {
      if i < |actions| {
        assert actions'[i] == actions[i] && states'[i] == states[i] && states'[i + 1] == states[i + 1];
      }
    }
  }

  /** Some continuation of the run ends in s. */
  ghost predicate Leads(states: seq<State>, actions: seq<Action>, s: State) {
    exists states': seq<State>, actions': seq<Action> :: LeadsBy(states, actions, states', actions', s)
  }

  ghost predicate LeadsBy(states: seq<State>, actions: seq<Action>,
                          states': seq<State>, actions': seq<Action>, s: State)
  {
    Continues(states, actions, states', actions') && Last(states') == s
  }

  lemma LeadsTo(states: seq<State>, actions: seq<Action>, s: State, a: Action, s': State)
    requires Leads(states, actions, s) && Step(s, a, s')
    ensures Leads(states, actions, s')
  {
    var states': seq<State>, actions': seq<Action> :| LeadsBy(states, actions, states', actions', s);
    Extend(states', actions', a, s');
    assert LeadsBy(states, actions, states' + [s'], actions' + [a], s');
  }

  // ---- a broken send returns a call to the queue ----

  /**
   * The run loop is at the failure of a send on session k, the server has neither accepted nor
   * refused the stream, call c is pending on it, and the queue is open and has room.
   */
  predicate AtFailedSend(s: State, k: nat, r: Request, e: Err, c: Request) {
    && s.run == SendErr(k, r, e) && k < |s.sessions| && Holds(s.sessions[k].table, c)
    && s.sessions[k].handoff == Fresh && (s.sessions[k].receiver.AwaitHeader? || s.sessions[k].receiver.Receive?)
    && !s.queueClosed && HasRoom(s)
  }

  /** Stream k was refused, and call c returned to the queue when the session ended. */
  predicate Returned(s: State, k: nat, c: Request) {
    && k < |s.sessions| && s.sessions[k].verdicts > 0 && s.sessions[k].refusal.Some?
    && c in s.sessions[k].requeued
  }

  /** A step of sendFailed, in a state that differs from s only in session k and the run loop. */
  lemma SendFails(states: seq<State>, actions: seq<Action>, s: State, k: nat,
                  x: Session, pc: RunPc, x': Session, pc': RunPc)
    requires k < |s.sessions| && Leads(states, actions, PutRun(s, k, x, pc))
    requires RunSession(pc) == Some(k) && SendFailedLocal(x, pc, x', pc')
    ensures Leads(states, actions, PutRun(s, k, x', pc'))
  {
    var t := PutRun(s, k, x', pc');
    assert t == PutRun(PutRun(s, k, x, pc), k, x', pc');
    LeadsTo(states, actions, PutRun(s, k, x, pc), RunStep(Proceed), t);
  }

  lemma Breaks(states: seq<State>, actions: seq<Action>, s: State, a: RunAction, s': State)
    requires Leads(states, actions, s) && RunSession(s.run).Some? && RunSession(s.run).value < |s.sessions|
    requires BreakStep(s, RunSession(s.run).value, a, s')
    ensures Leads(states, actions, s')
  {
    LeadsTo(states, actions, s, RunStep(a), s');
  }

  /** A step of the receiving goroutine, in a state that differs from s only in session k. */
  lemma Receives(states: seq<State>, actions: seq<Action>, s: State, k: nat, x: Session, a: ReceiverAction, x': Session)
    requires k < |s.sessions| && Leads(states, actions, Put(s, k, x))
    requires (a.Go? || a.ReceiveFails?) && ReceiverLocal(x, a, x')
    ensures Leads(states, actions, Put(s, k, x'))
  {
    var t := Put(s, k, x');
    assert t == Put(Put(s, k, x), k, t.sessions[k]);
    LeadsTo(states, actions, Put(s, k, x), ReceiverStep(k, a), t);
  }

  /** The send loop ends the session. */
  lemma CutOff(states: seq<State>, actions: seq<Action>, s: State, k: nat, r: Request, e: Err)
    requires Leads(states, actions, s) && s.run == SendErr(k, r, e) && k < |s.sessions|
    requires s.sessions[k].handoff == Fresh && e != EndOfStream
    ensures Leads(states, actions, PutRun(s, k, s.sessions[k].(broke := Some(e), done := true), BreakDrain(k, r, e)))
  {
    var x := s.sessions[k];
    assert s == PutRun(s, k, x, s.run);
    SendFails(states, actions, s, k, x, s.run, x.(broke := Some(e)), BreakCancel(k, r, e));
    SendFails(states, actions, s, k, x.(broke := Some(e)), BreakCancel(k, r, e),
              x.(broke := Some(e), done := true), BreakDrain(k, r, e));
  }

  lemma DrainOff(states: seq<State>, actions: seq<Action>, s: State, k: nat, r: Request, e: Err) returns (t: State)
    requires Leads(states, actions, s) && s.run == BreakDrain(k, r, e) && k < |s.sessions|
    ensures Leads(states, actions, t)
    ensures var x := s.sessions[k];
      t == PutRun(s, k, x.(table := Drained(x.table), broken := x.broken + Calls(x.table)),
                  BreakDispose(k, r, e, DrainAll(x.table, Some(e))))
  {
    var x := s.sessions[k];
    t := PutRun(s, k, x.(table := Drained(x.table), broken := x.broken + Calls(x.table)),
                BreakDispose(k, r, e, DrainAll(x.table, Some(e))));
    Breaks(states, actions, s, Proceed, t);
  }

  /** The loop of session.end picks a call and pushes it to the queue. */
  lemma PushBack(states: seq<State>, actions: seq<Action>, s: State, k: nat, r: Request, e: Err, c: Request)
    returns (t: State)
    requires Leads(states, actions, s) && k < |s.sessions|
    requires s.run.BreakDispose? && s.run.k == k && s.run.req == r && s.run.err == e
    requires s.run.work.current.Idle? && c in s.run.work.todo && Decide(s.sessions[k], s.run.work.err, c) == Requeue(c)
    requires !s.queueClosed && HasRoom(s)
    ensures Leads(states, actions, t)
    ensures t.queue == s.queue + [c]
    ensures t.sessions == s.sessions[k := s.sessions[k].(requeued := s.sessions[k].requeued + {c})]
  {
    var d := s.run.work;
    var d' := d.(todo := d.todo - {c}, current := Requeue(c));
    var u := Disposed(s, k, d, Pick(c)).(run := BreakDispose(k, r, e, d'));
    Breaks(states, actions, s, RunDispose(Pick(c)), u);
    t := u.(queue := u.queue + [c], run := BreakDispose(k, r, e, d'.(current := Idle)));
    Breaks(states, actions, u, RunDispose(Push(true)), t);
  }

  /** What a session is once the server has refused its stream. */
  function RefusedWith(x: Session, e: Err): Session {
    x.(handoff := Closed, refusal := Some(e), verdicts := x.verdicts + 1, receiver := EndSession(e))
  }

  /** The server refuses the stream. */
  lemma Refuse(states: seq<State>, actions: seq<Action>, s: State, k: nat, e: Err)
    requires Leads(states, actions, s) && k < |s.sessions| && IsRefusal(e)
    requires s.sessions[k].receiver.AwaitHeader? || s.sessions[k].receiver.Receive?
    requires s.sessions[k].handoff != Accepted
    ensures Leads(states, actions, Put(s, k, RefusedWith(s.sessions[k], e)))
  {
    var x := s.sessions[k];
    assert s == Put(s, k, x);
    if x.receiver.AwaitHeader? {
      Receives(states, actions, s, k, x, Go, x.(receiver := Receive));
    }
    assert x.receiver.Receive? ==> x == x.(receiver := Receive);
    Receives(states, actions, s, k, x.(receiver := Receive), ReceiveFails(e), x.(receiver := SwapHandoff(e)));
    CloseWith(states, actions, s, k, x, e);
  }

  /** receiveFailed on a stream that was not accepted. */
  lemma CloseWith(states: seq<State>, actions: seq<Action>, s: State, k: nat, x: Session, e: Err)
    requires k < |s.sessions| && Leads(states, actions, Put(s, k, x.(receiver := SwapHandoff(e))))
    requires IsRefusal(e) && x.handoff != Accepted
    ensures Leads(states, actions, Put(s, k, RefusedWith(x, e)))
  {
    var x1 := x.(handoff := Closed, receiver := SetRefusal(e));
    Swaps(x, e);
    assert RefusedWith(x1, e) == RefusedWith(x, e);
    Receives(states, actions, s, k, x.(receiver := SwapHandoff(e)), Go, x1);
    PublishRefusal(states, actions, s, k, x1, e);
  }

  lemma PublishRefusal(states: seq<State>, actions: seq<Action>, s: State, k: nat, x: Session, e: Err)
    requires k < |s.sessions| && Leads(states, actions, Put(s, k, x)) && IsRefusal(e)
    requires x.receiver == SetRefusal(e) && x.handoff == Closed
    ensures Leads(states, actions, Put(s, k, RefusedWith(x, e)))
  {
    var x' := x.(refusal := Some(e), receiver := CloseRefused(e));
    Receives(states, actions, s, k, x, Go, x');
    Receives(states, actions, s, k, x', Go, RefusedWith(x, e));
  }

  /** The first step of receiveFailed. */
  lemma Swaps(x: Session, e: Err)
    requires x.handoff != Accepted
    ensures ReceiverLocal(x.(receiver := SwapHandoff(e)), Go, x.(handoff := Closed, receiver := SetRefusal(e)))
  {
  }

  /** A stream at a failed send has no verdict yet. */
  lemma NoVerdictYet(states: seq<State>, actions: seq<Action>, k: nat, r: Request, e: Err, c: Request)
    requires IsRun(states, actions) && AtFailedSend(Last(states), k, r, e, c)
    ensures Last(states).sessions[k].verdicts == 0 && c in Calls(Last(states).sessions[k].table)
  {
    RunInv(states, actions, |states| - 1);
    var s := Last(states);
    assert SessionOk(s.sessions[k], s.ended);
    assert s.sessions[k].table.calls[c.id].req == c;
  }

  /** With any other error the call can return to the queue although the stream is then refused. */
  lemma BrokenSendCanReturnCall(states: seq<State>, actions: seq<Action>,
                                k: nat, r: Request, e: Err, c: Request, f: Err)
    returns (t: State)
    requires IsRun(states, actions) && AtFailedSend(Last(states), k, r, e, c)
    requires e != EndOfStream && e != ResourceExhausted && !c.streaming && IsRefusal(f)
    ensures Leads(states, actions, t) && Returned(t, k, c) && t.sessions[k].refusal == Some(f) && c in t.queue
  {
    var s := Last(states);
    assert LeadsBy(states, actions, states, actions, s);
    NoVerdictYet(states, actions, k, r, e, c);
    var u := EndOff(states, actions, s, k, r, e);
    DecideRequeues(u.sessions[k], e, c);
    t := ReturnAndRefuse(states, actions, u, k, r, e, c, f);
  }

  lemma DecideRequeues(x: Session, e: Err, c: Request)
    requires x.verdicts == 0 && e != ResourceExhausted && !c.streaming
    ensures Decide(x, Some(e), c) == Requeue(c)
  {
  }

  /** The send loop ends the session and drains its table. */
  lemma EndOff(states: seq<State>, actions: seq<Action>, s: State, k: nat, r: Request, e: Err) returns (t: State)
    requires Leads(states, actions, s) && s.run == SendErr(k, r, e) && k < |s.sessions|
    requires s.sessions[k].handoff == Fresh && e != EndOfStream
    ensures Leads(states, actions, t) && t.run == BreakDispose(k, r, e, DrainAll(s.sessions[k].table, Some(e)))
    ensures |t.sessions| == |s.sessions| && t.queue == s.queue && t.queueClosed == s.queueClosed
    ensures t.capacity == s.capacity && t.sessions[k].verdicts == s.sessions[k].verdicts
    ensures t.sessions[k].handoff == Fresh && t.sessions[k].receiver == s.sessions[k].receiver
  {
    CutOff(states, actions, s, k, r, e);
    var u := PutRun(s, k, s.sessions[k].(broke := Some(e), done := true), BreakDrain(k, r, e));
    t := DrainOff(states, actions, u, k, r, e);
  }

  lemma ReturnAndRefuse(states: seq<State>, actions: seq<Action>, s: State,
                        k: nat, r: Request, e: Err, c: Request, f: Err)
    returns (t: State)
    requires Leads(states, actions, s) && k < |s.sessions| && IsRefusal(f)
    requires s.run.BreakDispose? && s.run.k == k && s.run.req == r && s.run.err == e
    requires s.run.work.current.Idle? && c in s.run.work.todo && Decide(s.sessions[k], s.run.work.err, c) == Requeue(c)
    requires !s.queueClosed && HasRoom(s) && s.sessions[k].handoff == Fresh
    requires s.sessions[k].receiver.AwaitHeader? || s.sessions[k].receiver.Receive?
    ensures Leads(states, actions, t) && Returned(t, k, c) && t.sessions[k].refusal == Some(f) && c in t.queue
  {
    var u := PushBack(states, actions, s, k, r, e, c);
    Refuse(states, actions, u, k, f);
    t := Put(u, k, RefusedWith(u.sessions[k], f));
  }

  // ---- and otherwise it cannot ----

  /** Session k broke, if at all, with e, and its send loop does not come to another failure. */
  predicate Past(s: State, k: nat, e: Err) {
    && k < |s.sessions| && (s.sessions[k].broke.None? || s.sessions[k].broke == Some(e))
    && (Trying(s.run) && RunSession(s.run) == Some(k) ==> s.run.SendErr? && s.run.err == e)
  }

  lemma AwaitPast(s: State, a: RunAction, s': State, k: nat, e: Err)
    requires Past(s, k, e) && AwaitStep(s, a, s')
    ensures Past(s', k, e)
  {
    MovesPast(s, s', k, e);
  }

  lemma ExitPast(s: State, a: RunAction, s': State, k: nat, e: Err)
    requires Past(s, k, e) && ExitStep(s, a, s')
    ensures Past(s', k, e)
  {
    MovesPast(s, s', k, e);
  }

  lemma OpenPast(s: State, a: RunAction, s': State, k: nat, e: Err)
    requires Past(s, k, e) && OpenStep(s, a, s')
    ensures Past(s', k, e)
  {
    if s.run.Open? && a.Proceed? {
      OpenedPast(s, s.run.hand, s', k, e);
    } else {
      MovesPast(s, s', k, e);
    }
  }

  lemma OpenedPast(s: State, h: Option<Request>, s': State, k: nat, e: Err)
    requires Past(s, k, e) && s'.sessions == s.sessions + [NEW_SESSION] && s'.run == SendLoop(|s.sessions|, h)
    ensures Past(s', k, e)
  {
  }

  /** The run loop moves on in, or out of, the send loop of session j. */
  lemma MovesPast(s: State, s': State, k: nat, e: Err)
    requires Past(s, k, e) && |s'.sessions| == |s.sessions| && s'.sessions[k].broke == s.sessions[k].broke
    requires Trying(s'.run) && RunSession(s'.run) == Some(k) ==>
               Trying(s.run) && RunSession(s.run) == Some(k) && !s.run.SendErr?
    ensures Past(s', k, e)
  {
  }

  lemma TakePast(s: State, j: nat, a: RunAction, s': State, k: nat, e: Err)
    requires Past(s, k, e) && j < |s.sessions| && RunSession(s.run) == Some(j) && TakeStep(s, j, a, s')
    ensures Past(s', k, e)
  {
    MovesPast(s, s', k, e);
  }

  lemma SendPast(s: State, j: nat, a: RunAction, s': State, k: nat, e: Err)
    requires Past(s, k, e) && j < |s.sessions| && RunSession(s.run) == Some(j)
    requires SendStep(s, j, a, s') || FailOnewayStep(s, j, a, s')
    ensures Past(s', k, e)
  {
    MovesPast(s, s', k, e);
  }

  lemma AddPast(s: State, j: nat, a: RunAction, s': State, k: nat, e: Err)
    requires Past(s, k, e) && j < |s.sessions| && RunSession(s.run) == Some(j) && AddStep(s, j, a, s')
    ensures Past(s', k, e)
  {
    MovesPast(s, s', k, e);
  }

  lemma OutcomePast(s: State, j: nat, a: RunAction, s': State, k: nat, e: Err)
    requires Past(s, k, e) && j < |s.sessions| && RunSession(s.run) == Some(j) && OutcomeStep(s, j, a, s')
    ensures Past(s', k, e)
  {
    MovesPast(s, s', k, e);
  }

  lemma FinishPast(s: State, j: nat, s': State, k: nat, e: Err)
    requires Past(s, k, e) && j < |s.sessions| == |s'.sessions| && RunSession(s.run) == Some(j)
    requires s' == PutRun(s, j, s'.sessions[j], s'.run) && FinishLocal(s.sessions[j], s.run, s'.sessions[j], s'.run)
    ensures Past(s', k, e)
  {
    MovesPast(s, s', k, e);
  }

  lemma SendFailedPast(s: State, j: nat, s': State, k: nat, e: Err)
    requires Past(s, k, e) && j < |s.sessions| == |s'.sessions| && RunSession(s.run) == Some(j)
    requires s' == PutRun(s, j, s'.sessions[j], s'.run) && SendFailedLocal(s.sessions[j], s.run, s'.sessions[j], s'.run)
    ensures Past(s', k, e)
  {
  }

  lemma BreakPast(s: State, j: nat, a: RunAction, s': State, k: nat, e: Err)
    requires Past(s, k, e) && j < |s.sessions| && RunSession(s.run) == Some(j) && BreakStep(s, j, a, s')
    ensures Past(s', k, e)
  {
    if a.RunDispose? {
      ChannelPlaces.DisposeFrame(s, j, s.run.work, a.dispose);
    }
    MovesPast(s, s', k, e);
  }

  lemma RunStepPast(s: State, a: RunAction, s': State, k: nat, e: Err)
    requires Past(s, k, e) && RunStepOk(s, a, s')
    ensures Past(s', k, e)
  {
    match RunSession(s.run)
    case None =>
      if AwaitStep(s, a, s') {
        AwaitPast(s, a, s', k, e);
      } else if OpenStep(s, a, s') {
        OpenPast(s, a, s', k, e);
      } else {
        ExitPast(s, a, s', k, e);
      }
    case Some(j) =>
      if TakeStep(s, j, a, s') {
        TakePast(s, j, a, s', k, e);
      } else if AddStep(s, j, a, s') {
        AddPast(s, j, a, s', k, e);
      } else if OutcomeStep(s, j, a, s') {
        OutcomePast(s, j, a, s', k, e);
      } else if BreakStep(s, j, a, s') {
        BreakPast(s, j, a, s', k, e);
      } else if RunLocalStep(s, j, a, s') {
        if SendFailedLocal(s.sessions[j], s.run, s'.sessions[j], s'.run) {
          SendFailedPast(s, j, s', k, e);
        } else {
          FinishPast(s, j, s', k, e);
        }
      } else {
        SendPast(s, j, a, s', k, e);
      }
  }

  lemma SessionPast(s: State, j: nat, s': State, k: nat, e: Err)
    requires Past(s, k, e) && SessionEffect(s, j, s')
    ensures Past(s', k, e)
  {
    MovesOutside(s, s', k, e);
  }

  lemma MovesOutside(s: State, s': State, k: nat, e: Err)
    requires Past(s, k, e) && |s'.sessions| == |s.sessions| && s'.sessions[k].broke == s.sessions[k].broke
    requires s'.run == s.run
    ensures Past(s', k, e)
  {
  }

  lemma SessionStepPast(s: State, a: Action, s': State, k: nat, e: Err)
    requires Past(s, k, e) && ProtocolOk(s) && OfSession(a) && Step(s, a, s')
    ensures Past(s', k, e)
  {
    SessionStepEffect(s, a, s');
    SessionPast(s, a.k, s', k, e);
  }

  lemma EntryPast(s: State, a: Action, s': State, k: nat, e: Err)
    requires Past(s, k, e) && Step(s, a, s') && !OfSession(a) && !a.RunStep?
    ensures Past(s', k, e)
  {
    EntryFrame(s, a, s');
    MovesOutside(s, s', k, e);
  }

  lemma EntryFrame(s: State, a: Action, s': State)
    requires Step(s, a, s') && !OfSession(a) && !a.RunStep?
    ensures s'.sessions == s.sessions && s'.run == s.run
  {
    if a.CloseStep? {
      assert CloseStepOk(s, a.close, s');
    }
  }

  lemma StepPast(s: State, a: Action, s': State, k: nat, e: Err)
    requires Past(s, k, e) && ProtocolOk(s) && Step(s, a, s')
    ensures Past(s', k, e)
  {
    if OfSession(a) {
      SessionStepPast(s, a, s', k, e);
    } else if a.RunStep? {
      RunStepPast(s, a.run, s', k, e);
    } else {
      EntryPast(s, a, s', k, e);
    }
  }

  lemma {:induction false} RunPast(states: seq<State>, actions: seq<Action>, m: nat, n: nat, k: nat, e: Err)
    requires IsRun(states, actions) && m <= n < |states| && Past(states[m], k, e)
    ensures Past(states[n], k, e)
    decreases n
  {
    if m < n {
      RunPast(states, actions, m, n - 1, k, e);
      PastAt(states, actions, n - 1, k, e);
    }
  }

  lemma PastAt(states: seq<State>, actions: seq<Action>, n: nat, k: nat, e: Err)
    requires IsRun(states, actions) && n < |actions| && Past(states[n], k, e)
    ensures Past(states[n + 1], k, e)
  {
    RunInv(states, actions, n);
    assert Step(states[n], actions[n], states[n + 1]);
    StepPast(states[n], actions[n], states[n + 1], k, e);
  }

  lemma FailedIsPast(states: seq<State>, actions: seq<Action>, k: nat, r: Request, e: Err)
    requires IsRun(states, actions) && Last(states).run == SendErr(k, r, e) && k < |Last(states).sessions|
    ensures Past(Last(states), k, e)
  {
    RunInv(states, actions, |states| - 1);
  }

  /** A call returns to the queue from a refused stream only after a send that broke with another error. */
  lemma OnlyThen(states: seq<State>, actions: seq<Action>, k: nat, r: Request, e: Err, c: Request, s: State)
    requires IsRun(states, actions) && AtFailedSend(Last(states), k, r, e, c)
    requires Leads(states, actions, s) && Returned(s, k, c)
    ensures e != EndOfStream && e != ResourceExhausted && !c.streaming
  {
    var states': seq<State>, actions': seq<Action> :| LeadsBy(states, actions, states', actions', s);
    assert states'[|states| - 1] == Last(states);
    FailedIsPast(states, actions, k, r, e);
    RunPast(states', actions', |states| - 1, |states'| - 1, k, e);
    OnlyBrokenSendsRequeue(states', actions', |states'| - 1, k);
  }

  /**
   * At the failure of a send on a stream that was neither accepted nor refused, with call c pending
   * and room in the queue: a continuation exists in which the stream is refused and c returns to
   * the queue, if and only if the send failed with an error other than io.EOF and ResourceExhausted
   * and c is not a streaming call.
   */
  lemma CallCanReturnIff(states: seq<State>, actions: seq<Action>, k: nat, r: Request, e: Err, c: Request)
    requires IsRun(states, actions) && AtFailedSend(Last(states), k, r, e, c)
    ensures (exists s :: Leads(states, actions, s) && Returned(s, k, c))
            <==> e != EndOfStream && e != ResourceExhausted && !c.streaming
  {
    if e != EndOfStream && e != ResourceExhausted && !c.streaming {
      var s := BrokenSendCanReturnCall(states, actions, k, r, e, c, Refusal(0));
    }
    forall s | Leads(states, actions, s) && Returned(s, k, c)
      ensures e != EndOfStream && e != ResourceExhausted && !c.streaming
    {
      OnlyThen(states, actions, k, r, e, c, s);
    }
  }
}
