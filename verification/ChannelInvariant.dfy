/** The session invariants in every state of the channel, and what the run loop knows of them. */
module ChannelInvariant {
  import opened Requests
  import opened PendingTable
  import opened ChannelState
  import opened ChannelSteps
  import opened ChannelPlaces
  import opened ChannelSessions

  predicate SessionsOk(s: State) {
    forall k | 0 <= k < |s.sessions| :: SessionOk(s.sessions[k], s.ended)
  }

  /** The session whose send loop has not returned yet. */
  function Sending(pc: RunPc): Option<nat> {
    if pc.Outcome? || pc.AwaitVerdict? then None else RunSession(pc)
  }

  predicate Breaking(pc: RunPc) {
    pc.BreakCancel? || pc.BreakDrain? || pc.BreakDispose?
  }

  /** The send loop has had no failed send yet, or just had it. */
  predicate Trying(pc: RunPc) {
    || pc.Select? || pc.CheckEnded? || pc.CheckDraining? || pc.CheckCall? || pc.FailEnded?
    || pc.Add? || pc.Send? || pc.Confirm? || pc.SendErr?
  }

  /** Only the latest session sends; a broken send is on record before it disposes of calls. */
  predicate RunOk(s: State) {
    && (RunSession(s.run).Some? ==> RunSession(s.run).value + 1 == |s.sessions|)
    && (forall k | 0 <= k < |s.sessions| :: s.sessions[k].sendStopped <==> Sending(s.run) != Some(k))
    && (Trying(s.run) ==> s.sessions[|s.sessions| - 1].broke.None?)
    && (Breaking(s.run) ==> BreakOk(s.sessions[|s.sessions| - 1], s.run))
  }

  /** What a send that broke has recorded in its session. */
  predicate BreakOk(x: Session, pc: RunPc)
    requires Breaking(pc)
  {
    && x.broke == Some(pc.err) && (!pc.BreakCancel? ==> x.done)
    && (pc.BreakDispose? ==> pc.work.err == Some(pc.err) && WorkHolds(pc.work) <= x.broken)
  }

  ghost predicate ProtocolOk(s: State) {
    SessionsOk(s) && RunOk(s)
  }

  /** No step reopens a verdict or changes a refusal that others may already have read. */
  predicate VerdictsFinal(s: State, s': State) {
    && |s.sessions| <= |s'.sessions|
    && (forall k | 0 <= k < |s.sessions| :: VerdictFinal(s.sessions[k], s'.sessions[k]))
  }

  lemma PutSession(s: State, k: nat, x': Session, s': State)
    requires SessionsOk(s) && k < |s.sessions| && s'.sessions == s.sessions[k := x'] && s'.ended == s.ended
    requires SessionOk(x', s.ended) && VerdictFinal(s.sessions[k], x')
    ensures SessionsOk(s') && VerdictsFinal(s, s')
  {
  }

  /** A session step outside the run loop: what the run loop relies on stays. */
  lemma OutsideRun(s: State, k: nat, x': Session, s': State)
    requires ProtocolOk(s) && k < |s.sessions| && s'.sessions == s.sessions[k := x'] && s'.ended == s.ended
    requires s'.run == s.run && SessionOk(x', s.ended)
    requires SendSide(s.sessions[k], x')
    ensures ProtocolOk(s') && VerdictsFinal(s, s')
  {
    PutSession(s, k, x', s');
    OutsideRunOk(s, k, x', s');
  }

  lemma OutsideRunOk(s: State, k: nat, x': Session, s': State)
    requires RunOk(s) && k < |s.sessions| && s'.sessions == s.sessions[k := x'] && s'.run == s.run
    requires SendSide(s.sessions[k], x')
    ensures RunOk(s')
  {
    forall i | 0 <= i < |s'.sessions|
      ensures s'.sessions[i].sendStopped <==> Sending(s'.run) != Some(i)
    {
      assert s.sessions[i].sendStopped <==> Sending(s.run) != Some(i);
    }
  }

  // ---- the run loop ----

  /** The run loop moves between two points outside, or inside, the send loop of one session. */
  lemma RunMoves(s: State, s': State)
    requires ProtocolOk(s) && s'.sessions == s.sessions && s'.ended == s.ended
    requires Sending(s'.run) == Sending(s.run) && !Breaking(s'.run) && (Trying(s'.run) ==> Trying(s.run))
    requires RunSession(s'.run).Some? ==> RunSession(s'.run) == RunSession(s.run)
    ensures ProtocolOk(s') && VerdictsFinal(s, s')
  {
  }

  lemma AwaitKeeps(s: State, a: RunAction, s': State)
    requires ProtocolOk(s) && AwaitStep(s, a, s')
    ensures ProtocolOk(s') && VerdictsFinal(s, s')
  {
    RunMoves(s, s');
  }

  lemma ExitKeeps(s: State, a: RunAction, s': State)
    requires ProtocolOk(s) && ExitStep(s, a, s')
    ensures ProtocolOk(s') && VerdictsFinal(s, s')
  {
    RunMoves(s, s');
  }

  lemma OpenedKeeps(s: State, h: Option<Request>, s': State)
    requires ProtocolOk(s) && s.run == Open(h)
    requires s' == s.(sessions := s.sessions + [NEW_SESSION], run := SendLoop(|s.sessions|, h))
    ensures ProtocolOk(s') && VerdictsFinal(s, s')
  {
  }

  lemma OpenKeeps(s: State, a: RunAction, s': State)
    requires ProtocolOk(s) && OpenStep(s, a, s')
    ensures ProtocolOk(s') && VerdictsFinal(s, s')
  {
    if s.run.Open? && a.Proceed? {
      OpenedKeeps(s, s.run.hand, s');
    } else {
      RunMoves(s, s');
    }
  }

  lemma TakeKeeps(s: State, k: nat, a: RunAction, s': State)
    requires ProtocolOk(s) && k < |s.sessions| && RunSession(s.run) == Some(k) && TakeStep(s, k, a, s')
    ensures ProtocolOk(s') && VerdictsFinal(s, s')
  {
    RunMoves(s, s');
  }

  lemma SendKeeps(s: State, k: nat, a: RunAction, s': State)
    requires ProtocolOk(s) && k < |s.sessions| && RunSession(s.run) == Some(k)
    requires SendStep(s, k, a, s') || FailOnewayStep(s, k, a, s')
    ensures ProtocolOk(s') && VerdictsFinal(s, s')
  {
    RunMoves(s, s');
  }

  lemma OutcomeKeeps(s: State, k: nat, a: RunAction, s': State)
    requires ProtocolOk(s) && k < |s.sessions| && RunSession(s.run) == Some(k) && OutcomeStep(s, k, a, s')
    ensures ProtocolOk(s') && VerdictsFinal(s, s')
  {
    RunMoves(s, s');
  }

  lemma FreshInTable(s: State, k: nat, loc: map<Request, Place>)
    requires Consistent(s, loc) && k < |s.sessions| && s.run.Add?
    ensures s.run.req.id !in s.sessions[k].table.calls
  {
    var r, t := s.run.req, s.sessions[k].table;
    assert At(s, InRun, r);
    if r.id in t.calls {
      assert At(s, InTable(k), t.calls[r.id].req);
    }
  }

  lemma AddedKeeps(s: State, k: nat, r: Request, seen: set<nat>, x': Session, s': State)
    requires ProtocolOk(s) && s.run == Add(k, r) && k < |s.sessions| && seen <= s.ended
    requires !s.sessions[k].table.closed && r.id !in s.sessions[k].table.calls
    requires x' == s.sessions[k].(table := Added(s.sessions[k].table, r, seen), added := s.sessions[k].added + {r})
    requires s'.sessions == s.sessions[k := x'] && s'.run == Send(k, r) && s'.ended == s.ended
    ensures ProtocolOk(s') && VerdictsFinal(s, s')
  {
    AddKeeps(s.sessions[k], r, seen, x', s.ended);
    PutSession(s, k, x', s');
  }

  lemma AddStepKeeps(s: State, k: nat, a: RunAction, s': State, loc: map<Request, Place>)
    requires ProtocolOk(s) && Consistent(s, loc)
    requires k < |s.sessions| && RunSession(s.run) == Some(k) && AddStep(s, k, a, s')
    ensures ProtocolOk(s') && VerdictsFinal(s, s')
  {
    if s.run.req.WantServerResponse() && !s.sessions[k].table.closed {
      FreshInTable(s, k, loc);
      AddedKeeps(s, k, s.run.req, a.seen, s'.sessions[k], s');
    } else {
      RunMoves(s, s');
    }
  }

  lemma SendFailedStepKeeps(s: State, k: nat, s': State)
    requires ProtocolOk(s) && k < |s.sessions| == |s'.sessions| && RunSession(s.run) == Some(k)
    requires s' == PutRun(s, k, s'.sessions[k], s'.run)
    requires SendFailedLocal(s.sessions[k], s.run, s'.sessions[k], s'.run)
    ensures ProtocolOk(s') && VerdictsFinal(s, s')
  {
    SendFailedKeeps(s.sessions[k], s.run, s'.sessions[k], s'.run, s.ended);
    SendFailedMoves(s.sessions[k], s.run, s'.sessions[k], s'.run);
    PutSession(s, k, s'.sessions[k], s');
    SendingMoves(s, k, s');
  }

  lemma SendFailedMoves(x: Session, pc: RunPc, x': Session, pc': RunPc)
    requires SendFailedLocal(x, pc, x', pc') && (pc.BreakCancel? ==> x.broke == Some(pc.err))
    ensures RunSession(pc') == RunSession(pc) && Sending(pc') == Sending(pc) == RunSession(pc) && !Trying(pc')
    ensures x'.sendStopped == x.sendStopped && VerdictFinal(x, x') && (Breaking(pc') ==> BreakOk(x', pc'))
  {
  }

  /** The send loop of session k goes on to a point after a failed send. */
  lemma SendingMoves(s: State, k: nat, s': State)
    requires RunOk(s) && k < |s.sessions| == |s'.sessions| && s'.sessions == s.sessions[k := s'.sessions[k]]
    requires RunSession(s'.run) == RunSession(s.run) == Some(k) && Sending(s'.run) == Sending(s.run) && !Trying(s'.run)
    requires s'.sessions[k].sendStopped == s.sessions[k].sendStopped
    requires Breaking(s'.run) ==> BreakOk(s'.sessions[k], s'.run)
    ensures RunOk(s')
  {
  }

  lemma FinishStepKeeps(s: State, k: nat, s': State)
    requires ProtocolOk(s) && k < |s.sessions| == |s'.sessions| && RunSession(s.run) == Some(k)
    requires s' == PutRun(s, k, s'.sessions[k], s'.run)
    requires FinishLocal(s.sessions[k], s.run, s'.sessions[k], s'.run)
    ensures ProtocolOk(s') && VerdictsFinal(s, s')
  {
    if s.run.StopSending? {
      SpawnKeeps(s.sessions[k], s'.sessions[k], s.ended);
    }
    PutSession(s, k, s'.sessions[k], s');
  }

  lemma BreakDisposeKeeps(s: State, k: nat, b: DisposeAction, s': State)
    requires ProtocolOk(s) && k < |s.sessions| && s.run.BreakDispose? && s.run.k == k && CanDispose(s, s.run.work, b)
    requires s' == Disposed(s, k, s.run.work, b).(run := s.run.(work := Rest(s, s.sessions[k], s.run.work, b)))
    ensures ProtocolOk(s') && VerdictsFinal(s, s')
  {
    DisposeFrame(s, k, s.run.work, b);
    BrokenWorkKeeps(s, s.sessions[k], s.run.work, b, s.ended);
    PutSession(s, k, s'.sessions[k], s');
  }

  /** One step of the loop in session.end, run by a send that broke. */
  lemma BrokenWorkKeeps(s: State, x: Session, d: Disposal, b: DisposeAction, ended: set<nat>)
    requires SessionOk(x, ended) && CanDispose(s, d, b) && x.broke.Some? && d.err == x.broke && WorkHolds(d) <= x.broken
    ensures var d' := Rest(s, x, d, b);
      && WorkHolds(d') <= x.broken && d'.err == d.err
      && SessionOk(if b.Pick? || b.ReportDown? then Record(x, d'.current) else x, ended)
  {
    var c := Rest(s, x, d, b).current;
    if b.Pick? || b.ReportDown? {
      BrokenDecisionKeeps(x, c, Record(x, c), ended);
    }
  }

  lemma BreakDrainedKeeps(s: State, k: nat, r: Request, e: Err, s': State)
    requires ProtocolOk(s) && k < |s.sessions| && s.run == BreakDrain(k, r, e)
    requires var x := s.sessions[k];
      s' == PutRun(s, k, x.(table := Drained(x.table), broken := x.broken + Calls(x.table)),
                   BreakDispose(k, r, e, DrainAll(x.table, Some(e))))
    ensures ProtocolOk(s') && VerdictsFinal(s, s')
  {
    BreakDrainKeeps(s.sessions[k], s'.sessions[k], s.ended);
    PutSession(s, k, s'.sessions[k], s');
    SendingMoves(s, k, s');
  }

  lemma BreakStepKeeps(s: State, k: nat, a: RunAction, s': State)
    requires ProtocolOk(s) && k < |s.sessions| && RunSession(s.run) == Some(k) && BreakStep(s, k, a, s')
    ensures ProtocolOk(s') && VerdictsFinal(s, s')
  {
    if s.run.BreakDrain? {
      BreakDrainedKeeps(s, k, s.run.req, s.run.err, s');
    } else if a.RunDispose? {
      BreakDisposeKeeps(s, k, a.dispose, s');
    } else {
      RunMoves(s, s');
    }
  }

  lemma RunStepKeeps(s: State, a: RunAction, s': State, loc: map<Request, Place>)
    requires ProtocolOk(s) && Consistent(s, loc) && RunStepOk(s, a, s')
    ensures ProtocolOk(s') && VerdictsFinal(s, s')
  {
    match RunSession(s.run)
    case None =>
      if AwaitStep(s, a, s') {
        AwaitKeeps(s, a, s');
      } else if OpenStep(s, a, s') {
        OpenKeeps(s, a, s');
      } else {
        ExitKeeps(s, a, s');
      }
    case Some(k) => SendLoopKeeps(s, k, a, s', loc);
  }

  lemma SendLoopKeeps(s: State, k: nat, a: RunAction, s': State, loc: map<Request, Place>)
    requires ProtocolOk(s) && Consistent(s, loc) && RunSession(s.run) == Some(k) && RunStepOk(s, a, s')
    ensures ProtocolOk(s') && VerdictsFinal(s, s')
  {
    if TakeStep(s, k, a, s') {
      TakeKeeps(s, k, a, s');
    } else if AddStep(s, k, a, s') {
      AddStepKeeps(s, k, a, s', loc);
    } else if OutcomeStep(s, k, a, s') {
      OutcomeKeeps(s, k, a, s');
    } else if BreakStep(s, k, a, s') {
      BreakStepKeeps(s, k, a, s');
    } else if RunLocalStep(s, k, a, s') {
      RunLocalKeeps(s, k, a, s');
    } else {
      SendKeeps(s, k, a, s');
    }
  }

  lemma RunLocalKeeps(s: State, k: nat, a: RunAction, s': State)
    requires ProtocolOk(s) && k < |s.sessions| && RunSession(s.run) == Some(k) && RunLocalStep(s, k, a, s')
    ensures ProtocolOk(s') && VerdictsFinal(s, s')
  {
    if SendFailedLocal(s.sessions[k], s.run, s'.sessions[k], s'.run) {
      SendFailedStepKeeps(s, k, s');
    } else {
      FinishStepKeeps(s, k, s');
    }
  }

  // ---- the other goroutines ----

  /** One step of the loop in session.end, run by the receiving goroutine. */
  lemma ReceiverWorkKeeps(s: State, x: Session, d: Disposal, b: DisposeAction, x': Session, ended: set<nat>)
    requires SessionOk(x, ended) && x.receiver == DisposeCalls(d) && CanDispose(s, d, b)
    requires var d' := Rest(s, x, d, b);
      x' == (if b.Pick? || b.ReportDown? then Record(x, d'.current) else x).(receiver := DisposeCalls(d'))
    ensures SessionOk(x', ended)
  {
    match b
    case Pick(r) => ReceiverPickKeeps(x, d, r, x', ended);
    case ReportDown => ReceiverReportDownKeeps(s, x, d, x', ended);
    case _ => ReceiverSettleKeeps(s, x, d, b, x', ended);
  }

  lemma ReceiverDisposeFrame(s: State, k: nat, d: Disposal, b: DisposeAction, s': State)
    requires k < |s.sessions| && ReceiverDisposeStep(s, k, d, b, s')
    ensures |s'.sessions| == |s.sessions| && s'.sessions == s.sessions[k := s'.sessions[k]]
    ensures s'.run == s.run && s'.ended == s.ended && SendSide(s.sessions[k], s'.sessions[k])
    ensures var x, d' := s.sessions[k], Rest(s, s.sessions[k], d, b);
      s'.sessions[k] == (if b.Pick? || b.ReportDown? then Record(x, d'.current) else x).(receiver := DisposeCalls(d'))
  {
    DisposeFrame(s, k, d, b);
    assert s'.sessions == s.sessions[k := s'.sessions[k]];
  }

  lemma ReceiverDisposeKeeps(s: State, k: nat, d: Disposal, b: DisposeAction, s': State)
    requires ProtocolOk(s) && k < |s.sessions| && s.sessions[k].receiver == DisposeCalls(d)
    requires ReceiverDisposeStep(s, k, d, b, s')
    ensures ProtocolOk(s') && VerdictsFinal(s, s')
  {
    ReceiverDisposeFrame(s, k, d, b, s');
    ReceiverWorkKeeps(s, s.sessions[k], d, b, s'.sessions[k], s.ended);
    OutsideRun(s, k, s'.sessions[k], s');
  }

  lemma DeliverStepKeeps(s: State, k: nat, delivered: bool, s': State)
    requires ProtocolOk(s) && k < |s.sessions| && DeliverStep(s, k, delivered, s')
    ensures ProtocolOk(s') && VerdictsFinal(s, s')
  {
    DeliverKeeps(s.sessions[k], s'.sessions[k], s.ended);
    OutsideRun(s, k, s'.sessions[k], s');
  }

  lemma ReceiverStepKeeps(s: State, k: nat, a: ReceiverAction, s': State)
    requires ProtocolOk(s) && ReceiverStepOk(s, k, a, s')
    ensures ProtocolOk(s') && VerdictsFinal(s, s')
  {
    match a
    case ReceiverReply(d) => DeliverStepKeeps(s, k, d, s');
    case ReceiverDispose(b) => ReceiverDisposeKeeps(s, k, s.sessions[k].receiver.work, b, s');
    case _ =>
      ReceiverLocalKeeps(s.sessions[k], a, s'.sessions[k], s.ended);
      OutsideRun(s, k, s'.sessions[k], s');
  }

  lemma WatcherStepKeeps(s: State, k: nat, goAway: bool, s': State)
    requires ProtocolOk(s) && WatcherStepOk(s, k, goAway, s')
    ensures ProtocolOk(s') && VerdictsFinal(s, s')
  {
    WatcherKeeps(s.sessions[k], goAway, s'.sessions[k], s.ended);
    OutsideRun(s, k, s'.sessions[k], s');
  }

  lemma CheckStepKeeps(s: State, k: nat, i: nat, a: CheckAction, s': State)
    requires ProtocolOk(s) && CheckStepOk(s, k, i, a, s')
    ensures ProtocolOk(s') && VerdictsFinal(s, s')
  {
    assert CheckOk(s.sessions[k], s.sessions[k].checks[i]);
    assert a.Advance?; // a drained session has no call left to dispose of
    CheckSteps(s.sessions[k], i, s'.sessions[k]);
    ChannelSessions.CheckKeeps(s.sessions[k], i, s'.sessions[k], s.ended);
    OutsideRun(s, k, s'.sessions[k], s');
  }

  lemma ExpireStepKeeps(s: State, k: nat, r: Request, s': State)
    requires ProtocolOk(s) && ExpireStep(s, k, r, s')
    ensures ProtocolOk(s') && VerdictsFinal(s, s')
  {
    ExpireKeeps(s.sessions[k], r, s'.sessions[k], s.ended);
    OutsideRun(s, k, s'.sessions[k], s');
  }

  lemma PropagateKeeps(s: State, k: nat, s': State)
    requires ProtocolOk(s) && PropagateEndStep(s, k, s')
    ensures ProtocolOk(s') && VerdictsFinal(s, s')
  {
    FlagKeeps(s.sessions[k], s'.sessions[k], s.ended);
    OutsideRun(s, k, s'.sessions[k], s');
  }

  lemma EndCallKeeps(s: State, id: nat, s': State)
    requires ProtocolOk(s) && EndCallContextStep(s, id, s')
    ensures ProtocolOk(s') && VerdictsFinal(s, s')
  {
    forall k | 0 <= k < |s'.sessions|
      ensures SessionOk(s'.sessions[k], s'.ended)
    {
      MoreEnded(s.sessions[k], s.ended, s'.ended);
    }
  }

  /** Pushes and Close do not touch the sessions or the run loop. */
  lemma ElsewhereKeeps(s: State, s': State)
    requires ProtocolOk(s) && s'.sessions == s.sessions && s'.run == s.run && s'.ended == s.ended
    ensures ProtocolOk(s') && VerdictsFinal(s, s')
  {
  }

  lemma CloseStepKeeps(s: State, a: CloseAction, s': State)
    requires ProtocolOk(s) && CloseStepOk(s, a, s')
    ensures ProtocolOk(s') && VerdictsFinal(s, s')
  {
    ElsewhereKeeps(s, s');
  }

  /** Every step of every goroutine keeps the session invariants. */
  lemma StepKeeps(s: State, a: Action, s': State, loc: map<Request, Place>)
    requires ProtocolOk(s) && Consistent(s, loc) && Step(s, a, s')
    ensures ProtocolOk(s') && VerdictsFinal(s, s')
  {
    match a
    case EndCallContext(id) => EndCallKeeps(s, id, s');
    case PropagateEnd(k) => PropagateKeeps(s, k, s');
    case RunStep(b) => RunStepKeeps(s, b, s', loc);
    case ReceiverStep(k, b) => ReceiverStepKeeps(s, k, b, s');
    case WatcherStep(k, goAway) => WatcherStepKeeps(s, k, goAway, s');
    case CheckStep(k, i, b) => CheckStepKeeps(s, k, i, b, s');
    case Expire(k, r) => ExpireStepKeeps(s, k, r, s');
    case CloseStep(b) => CloseStepKeeps(s, b, s');
    case _ => ElsewhereKeeps(s, s');
  }
}
