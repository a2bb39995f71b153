/**
 * A failed send is reachable: a run to the state from which a broken send returns its call to the
 * queue although the server then refuses the stream.
 */
module ChannelCounterexample {
  import opened Requests
  import opened PendingTable
  import opened ChannelState
  import opened ChannelSteps
  import opened ChannelRefusals

  ghost predicate Reachable(s: State) {
    Leads([IDLE], [], s)
  }

  lemma Go(s: State, a: Action, s': State)
    requires Reachable(s) && Step(s, a, s')
    ensures Reachable(s')
  {
    LeadsTo([IDLE], [], s, a, s');
  }

  const CALL := Request(1, false, false, true)
  const BROKEN := Other(0)

  const IDLE := State(1, false, false, {}, [], false, map[], CheckContext(None), None, NotClosed,
                      [], {}, {}, multiset{})

  const QUEUED := IDLE.(queue := [CALL], issued := {CALL})

  lemma Queued()
    ensures Reachable(QUEUED)
  {
    assert LeadsBy([IDLE], [], [IDLE], [], IDLE);
    var s := IDLE.(pushing := map[CALL := Begin(false)], issued := {CALL});
    Go(IDLE, Enqueue(CALL, false), s);
    assert map[CALL := Begin(false)] - {CALL} == map[];
    assert [] + [CALL] == [CALL];
    Go(s, PushBegin(CALL, true), QUEUED);
  }

  lemma Opened()
    ensures Reachable(QUEUED.(run := Select(0), sessions := [NEW_SESSION]))
  {
    Queued();
    var s := QUEUED.(run := Open(None));
    Go(QUEUED, RunStep(Proceed), s);
    assert [] + [NEW_SESSION] == [NEW_SESSION];
    Go(s, RunStep(Proceed), QUEUED.(run := Select(0), sessions := [NEW_SESSION]));
  }

  const TAKEN := IDLE.(issued := {CALL}, sessions := [NEW_SESSION])

  /** The send loop's next step on session 0. */
  lemma Takes(s: State, a: RunAction, s': State)
    requires Reachable(s) && |s.sessions| > 0 && RunSession(s.run) == Some(0)
    requires TakeStep(s, 0, a, s') || SendStep(s, 0, a, s') || AddStep(s, 0, a, s')
    ensures Reachable(s')
  {
    Go(s, RunStep(a), s');
  }

  lemma Checked()
    ensures Reachable(TAKEN.(run := Add(0, CALL)))
  {
    Opened();
    Takes(QUEUED.(run := Select(0), sessions := [NEW_SESSION]), TakeQueued(false), TAKEN.(run := CheckEnded(0, CALL)));
    Takes(TAKEN.(run := CheckEnded(0, CALL)), Proceed, TAKEN.(run := CheckDraining(0, CALL)));
    Takes(TAKEN.(run := CheckDraining(0, CALL)), Proceed, TAKEN.(run := CheckCall(0, CALL)));
    Takes(TAKEN.(run := CheckCall(0, CALL)), Proceed, TAKEN.(run := Add(0, CALL)));
  }

  const SENT := NEW_SESSION.(table := Added(EMPTY, CALL, {}), added := {CALL})

  lemma AddedCall()
    ensures Reachable(TAKEN.(run := Send(0, CALL), sessions := [SENT]))
  {
    Checked();
    assert Swept(EMPTY, {}) == {};
    assert [NEW_SESSION][0 := SENT] == [SENT];
    Takes(TAKEN.(run := Add(0, CALL)), AddCall({}), TAKEN.(run := Send(0, CALL), sessions := [SENT]));
  }

  lemma Failed()
    ensures Reachable(TAKEN.(run := SendErr(0, CALL, BROKEN), sessions := [SENT]))
  {
    AddedCall();
    Takes(TAKEN.(run := Send(0, CALL), sessions := [SENT]), SendFails(BROKEN),
          TAKEN.(run := SendErr(0, CALL, BROKEN), sessions := [SENT]));
  }

  const FAILED := TAKEN.(run := SendErr(0, CALL, BROKEN), sessions := [SENT])

  /** A run in which the stream is refused and its call is back in the queue. */
  lemma BrokenSendReturnsCallToQueue(f: Err) returns (states: seq<State>, actions: seq<Action>)
    requires IsRefusal(f)
    ensures IsRun(states, actions) && Returned(Last(states), 0, CALL)
    ensures Last(states).sessions[0].refusal == Some(f) && CALL in Last(states).queue
  {
    Failed();
    var run: seq<State>, steps: seq<Action> :| LeadsBy([IDLE], [], run, steps, FAILED);
    AtFailure();
    var t := BrokenSendCanReturnCall(run, steps, 0, CALL, BROKEN, CALL, f);
    states, actions :| LeadsBy(run, steps, states, actions, t);
  }

  lemma AtFailure()
    ensures AtFailedSend(FAILED, 0, CALL, BROKEN, CALL)
  {
  }
}
