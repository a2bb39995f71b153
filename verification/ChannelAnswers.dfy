/** Each request is answered at most once, and silently dropped only after its context ended. */
module ChannelAnswers {
  import opened Requests
  import opened PendingTable
  import opened ChannelState
  import opened ChannelSteps
  import opened ChannelPlaces
  import opened ChannelSessions
  import opened ChannelInvariant

  ghost predicate AnswersOk(s: State) {
    && (forall r <- s.answers :: r.hasChannel && (!r.streaming ==> s.answers[r] == 1 && r in s.settled))
    && (forall r <- s.settled :: r.hasChannel && r !in s.answers ==> r.id in s.ended)
  }

  /** What is settled stays settled, and what was delivered stays delivered. */
  ghost predicate Grows(s: State, s': State) {
    s.settled <= s'.settled && s.answers <= s'.answers
  }

  lemma SettleAnswers(s: State, r: Request, delivered: bool, s': State)
    requires AnswersOk(s) && r !in s.settled && CanSettle(s, r, delivered) && s.ended <= s'.ended
    requires s'.settled == s.settled + {r}
    requires s'.answers == if delivered then s.answers + multiset{r} else s.answers
    ensures AnswersOk(s') && Grows(s, s')
  {
  }

  lemma SameAnswers(s: State, s': State)
    requires AnswersOk(s) && s'.settled == s.settled && s'.answers == s.answers && s.ended <= s'.ended
    ensures AnswersOk(s') && Grows(s, s')
  {
  }

  lemma SilentAnswers(s: State, s': State)
    requires AnswersOk(s) && s'.answers == s.answers && s'.ended == s.ended && s.settled <= s'.settled
    requires forall r <- s'.settled :: r in s.settled || r.id in s.ended
    ensures AnswersOk(s') && Grows(s, s')
  {
  }

  lemma NotSettled(s: State, p: Place, r: Request, loc: map<Request, Place>)
    requires Consistent(s, loc) && At(s, p, r) && p != Settled
    ensures r !in s.settled
  {
    assert !At(s, Settled, r);
  }

  lemma DisposeAnswers(s: State, k: nat, p: Place, d: Disposal, b: DisposeAction, s': State, loc: map<Request, Place>)
    requires AnswersOk(s) && Consistent(s, loc) && k < |s.sessions| && CanDispose(s, d, b) && p != Settled
    requires forall r <- WorkHolds(d) :: At(s, p, r)
    requires var s1 := Disposed(s, k, d, b);
      s'.settled == s1.settled && s'.answers == s1.answers && s'.ended == s1.ended
    ensures AnswersOk(s') && Grows(s, s')
  {
    if b.Report? {
      NotSettled(s, p, d.current.req, loc);
      SettleAnswers(s, d.current.req, b.delivered, s');
    } else {
      SameAnswers(s, s');
    }
  }

  lemma ReplyAnswers(s: State, r: Request, d: bool, s': State, loc: map<Request, Place>)
    requires AnswersOk(s) && Consistent(s, loc) && r in RunHolds(s.run) && CanSettle(s, r, d)
    requires s'.settled == s.settled + {r} && s'.ended == s.ended
    requires s'.answers == if d then s.answers + multiset{r} else s.answers
    ensures AnswersOk(s') && Grows(s, s')
  {
    assert At(s, InRun, r);
    NotSettled(s, InRun, r, loc);
    SettleAnswers(s, r, d, s');
  }

  lemma OutsideAnswers(s: State, a: RunAction, s': State, loc: map<Request, Place>)
    requires AnswersOk(s) && Consistent(s, loc)
    requires AwaitStep(s, a, s') || OpenStep(s, a, s') || ExitStep(s, a, s')
    ensures AnswersOk(s') && Grows(s, s')
  {
    if a.Reply? {
      ReplyAnswers(s, s.run.req, a.delivered, s', loc);
    } else {
      OutsideSilent(s, a, s');
      SameAnswers(s, s');
    }
  }

  lemma OutsideSilent(s: State, a: RunAction, s': State)
    requires (AwaitStep(s, a, s') || OpenStep(s, a, s') || ExitStep(s, a, s')) && !a.Reply?
    ensures s'.settled == s.settled && s'.answers == s.answers && s'.ended == s.ended
  {
  }

  lemma SweptEnded(t: Table, seen: set<nat>)
    requires WellKeyed(t)
    ensures forall r <- Swept(t, seen) :: r.id in seen
  {
  }

  lemma AddAnswers(s: State, k: nat, a: RunAction, s': State)
    requires AnswersOk(s) && SessionsOk(s) && k < |s.sessions| && AddStep(s, k, a, s')
    ensures AnswersOk(s') && Grows(s, s')
  {
    SweptEnded(s.sessions[k].table, a.seen);
    SilentAnswers(s, s');
  }

  lemma QuietAnswers(s: State, k: nat, a: RunAction, s': State)
    requires AnswersOk(s) && k < |s.sessions|
    requires TakeStep(s, k, a, s') || RunLocalStep(s, k, a, s') || OutcomeStep(s, k, a, s')
    ensures AnswersOk(s') && Grows(s, s')
  {
    SameAnswers(s, s');
  }

  lemma SendAnswers(s: State, k: nat, a: RunAction, s': State, loc: map<Request, Place>)
    requires AnswersOk(s) && Consistent(s, loc) && k < |s.sessions| && SendStep(s, k, a, s')
    ensures AnswersOk(s') && Grows(s, s')
  {
    if a.Reply? {
      ReplyAnswers(s, s.run.req, a.delivered, s', loc);
    } else {
      SameAnswers(s, s');
    }
  }

  lemma BreakAnswers(s: State, k: nat, a: RunAction, s': State, loc: map<Request, Place>)
    requires AnswersOk(s) && Consistent(s, loc) && k < |s.sessions| && BreakStep(s, k, a, s')
    ensures AnswersOk(s') && Grows(s, s')
  {
    if a.RunDispose? {
      DisposeAnswers(s, k, InRun, s.run.work, a.dispose, s', loc);
    } else {
      SameAnswers(s, s');
    }
  }

  lemma RunAnswers(s: State, a: RunAction, s': State, loc: map<Request, Place>)
    requires AnswersOk(s) && ProtocolOk(s) && Consistent(s, loc) && RunStepOk(s, a, s')
    ensures AnswersOk(s') && Grows(s, s')
  {
    match RunSession(s.run)
    case None => OutsideAnswers(s, a, s', loc);
    case Some(k) =>
      if AddStep(s, k, a, s') {
        AddAnswers(s, k, a, s');
      } else if BreakStep(s, k, a, s') {
        BreakAnswers(s, k, a, s', loc);
      } else if SendStep(s, k, a, s') {
        SendAnswers(s, k, a, s', loc);
      } else if FailOnewayStep(s, k, a, s') {
        ReplyAnswers(s, s.run.req, a.delivered, s', loc);
      } else {
        QuietAnswers(s, k, a, s');
      }
  }

  lemma DeliverAnswers(s: State, k: nat, d: bool, s': State, loc: map<Request, Place>)
    requires AnswersOk(s) && ProtocolOk(s) && Consistent(s, loc) && k < |s.sessions| && DeliverStep(s, k, d, s')
    ensures AnswersOk(s') && Grows(s, s')
  {
    var x := s.sessions[k];
    if x.receiver.Deliver? {
      var r := x.receiver.req;
      assert At(s, InReceiver(k), r);
      NotSettled(s, InReceiver(k), r, loc);
      SettleAnswers(s, r, d, s');
    } else {
      assert VerdictOk(x);
    }
  }

  lemma ReceiverAnswers(s: State, k: nat, a: ReceiverAction, s': State, loc: map<Request, Place>)
    requires AnswersOk(s) && ProtocolOk(s) && Consistent(s, loc) && ReceiverStepOk(s, k, a, s')
    ensures AnswersOk(s') && Grows(s, s')
  {
    match a
    case ReceiverReply(d) => DeliverAnswers(s, k, d, s', loc);
    case ReceiverDispose(b) =>
      DisposeAnswers(s, k, InReceiver(k), s.sessions[k].receiver.work, b, s', loc);
    case _ => SameAnswers(s, s');
  }

  lemma CheckAnswers(s: State, k: nat, i: nat, a: CheckAction, s': State, loc: map<Request, Place>)
    requires AnswersOk(s) && Consistent(s, loc) && CheckStepOk(s, k, i, a, s')
    ensures AnswersOk(s') && Grows(s, s')
  {
    match a
    case Advance => SameAnswers(s, s');
    case CheckDispose(b) =>
      DisposeAnswers(s, k, InCheck(k, i), s.sessions[k].checks[i].work, b, s', loc);
  }

  lemma CloseAnswers(s: State, a: CloseAction, s': State, loc: map<Request, Place>)
    requires AnswersOk(s) && Consistent(s, loc) && CloseStepOk(s, a, s')
    ensures AnswersOk(s') && Grows(s, s')
  {
    match a
    case CloseReply(d) =>
      assert At(s, InClose, s.close.req);
      NotSettled(s, InClose, s.close.req, loc);
      SettleAnswers(s, s.close.req, d, s');
    case _ => SameAnswers(s, s');
  }

  lemma StepAnswers(s: State, a: Action, s': State, loc: map<Request, Place>)
    requires AnswersOk(s) && ProtocolOk(s) && Consistent(s, loc) && Step(s, a, s')
    ensures AnswersOk(s') && Grows(s, s')
  {
    if a.RunStep? {
      RunAnswers(s, a.run, s', loc);
    } else if OfSession(a) {
      SessionStepAnswers(s, a, s', loc);
    } else {
      EntryAnswers(s, a, s', loc);
    }
  }

  lemma SessionStepAnswers(s: State, a: Action, s': State, loc: map<Request, Place>)
    requires AnswersOk(s) && ProtocolOk(s) && Consistent(s, loc) && Step(s, a, s') && OfSession(a)
    ensures AnswersOk(s') && Grows(s, s')
  {
    if a.ReceiverStep? {
      ReceiverAnswers(s, a.k, a.receive, s', loc);
    } else if a.CheckStep? {
      CheckAnswers(s, a.k, a.i, a.check, s', loc);
    } else if a.Expire? {
      SilentAnswers(s, s');
    } else {
      SameAnswers(s, s');
    }
  }

  lemma EntryAnswers(s: State, a: Action, s': State, loc: map<Request, Place>)
    requires AnswersOk(s) && Consistent(s, loc) && Step(s, a, s') && !OfSession(a) && !a.RunStep?
    ensures AnswersOk(s') && Grows(s, s')
  {
    if a.CloseStep? {
      CloseAnswers(s, a.close, s', loc);
    } else if a.PushFail? {
      assert At(s, InPush, a.req);
      NotSettled(s, InPush, a.req, loc);
      SettleAnswers(s, a.req, a.delivered, s');
    } else {
      SameAnswers(s, s');
    }
  }
}
