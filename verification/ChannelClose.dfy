/** What Close and the deferred close of the send queue leave behind. */
module ChannelClose {
  import opened Requests
  import opened PendingTable
  import opened ChannelState
  import opened ChannelSteps
  import opened ChannelPlaces
  import opened ChannelSessions
  import opened ChannelInvariant

  predicate QueueShut(s: State) {
    s.close.CloseDrainQueue? || s.close.CloseFail? || s.close.CloseWait? || s.close.CloseReturned?
  }

  predicate RunShut(pc: RunPc) {
    pc.ExitDrain? || pc.ExitFail? || pc.Exited?
  }

  ghost predicate CloseOk(s: State) {
    && (s.close != NotClosed ==> s.ctxEnded)
    && (QueueShut(s) || RunShut(s.run) ==> s.queueClosed)
    && (s.close.CloseWait? || s.close.CloseReturned? ==> s.queue == [])
    && (s.close.CloseReturned? ==> AllDone(s))
    && (s.queueClosed ==> forall r <- s.pushing :: !s.pushing[r].Waiting?)
  }

  /** No step reopens the queue, fills a closed queue, or revives a context. */
  ghost predicate Monotone(s: State, s': State) {
    && (s.ctxEnded ==> s'.ctxEnded)
    && (s.queueClosed ==> s'.queueClosed && (s.queue == [] ==> s'.queue == []))
  }

  /** What a run-loop step may do to the parts of the state that Close depends on. */
  ghost predicate RunEffect(s: State, s': State) {
    && Monotone(s, s') && s'.close == s.close && s'.pushing == s.pushing
    && (RunShut(s'.run) ==> s'.queueClosed)
    && (s'.queueClosed && !s.queueClosed ==> forall r <- s.pushing :: s.pushing[r].Begin?)
  }

  lemma AwaitEffect(s: State, a: RunAction, s': State)
    requires AwaitStep(s, a, s')
    ensures RunEffect(s, s')
  {
  }

  lemma OpenEffect(s: State, a: RunAction, s': State)
    requires OpenStep(s, a, s')
    ensures RunEffect(s, s')
  {
  }

  lemma ExitEffect(s: State, a: RunAction, s': State)
    requires ExitStep(s, a, s') && CloseOk(s)
    ensures RunEffect(s, s')
  {
  }

  lemma TakeEffect(s: State, k: nat, a: RunAction, s': State)
    requires k < |s.sessions| && TakeStep(s, k, a, s')
    ensures RunEffect(s, s')
  {
  }

  lemma SendEffect(s: State, k: nat, a: RunAction, s': State)
    requires k < |s.sessions| && (SendStep(s, k, a, s') || FailOnewayStep(s, k, a, s') || AddStep(s, k, a, s'))
    ensures RunEffect(s, s')
  {
  }

  lemma LocalEffect(s: State, k: nat, a: RunAction, s': State)
    requires k < |s.sessions| && (RunLocalStep(s, k, a, s') || OutcomeStep(s, k, a, s'))
    ensures RunEffect(s, s')
  {
  }

  lemma BreakEffect(s: State, k: nat, a: RunAction, s': State)
    requires k < |s.sessions| && BreakStep(s, k, a, s')
    ensures RunEffect(s, s')
  {
  }

  lemma RunStepEffect(s: State, a: RunAction, s': State)
    requires RunStepOk(s, a, s') && CloseOk(s)
    ensures RunEffect(s, s')
  {
    match RunSession(s.run)
    case None =>
      if AwaitStep(s, a, s') {
        AwaitEffect(s, a, s');
      } else if OpenStep(s, a, s') {
        OpenEffect(s, a, s');
      } else {
        ExitEffect(s, a, s');
      }
    case Some(k) =>
      if TakeStep(s, k, a, s') {
        TakeEffect(s, k, a, s');
      } else if BreakStep(s, k, a, s') {
        BreakEffect(s, k, a, s');
      } else if RunLocalStep(s, k, a, s') || OutcomeStep(s, k, a, s') {
        LocalEffect(s, k, a, s');
      } else {
        SendEffect(s, k, a, s');
      }
  }

  lemma RunCloseKeeps(s: State, a: RunAction, s': State)
    requires CloseOk(s) && RunStepOk(s, a, s')
    ensures CloseOk(s') && !s.run.Exited?
  {
    RunStepEffect(s, a, s');
    assert !s.run.Exited?;
  }

  /** A session step: the queue is monotone, a goroutine that is done stays done, and no send breaks. */
  ghost predicate SessionEffect(s: State, k: nat, s': State) {
    && Monotone(s, s') && s'.close == s.close && s'.pushing == s.pushing && s'.run == s.run
    && s'.queueClosed == s.queueClosed && k < |s.sessions| == |s'.sessions|
    && s'.sessions == s.sessions[k := s'.sessions[k]]
    && (s.sessions[k].receiver.ReceiverDone? ==> s'.sessions[k].receiver.ReceiverDone?)
    && (s.sessions[k].watcher.WatcherDone? ==> s'.sessions[k].watcher.WatcherDone?)
    && s'.sessions[k].broke == s.sessions[k].broke
  }

  lemma SessionCloseKeeps(s: State, k: nat, s': State)
    requires CloseOk(s) && SessionEffect(s, k, s')
    ensures CloseOk(s')
  {
  }

  lemma DeliverEffect(s: State, k: nat, d: bool, s': State)
    requires k < |s.sessions| && DeliverStep(s, k, d, s')
    ensures SessionEffect(s, k, s')
  {
  }

  lemma WatcherEffect(s: State, k: nat, goAway: bool, s': State)
    requires WatcherStepOk(s, k, goAway, s')
    ensures SessionEffect(s, k, s')
  {
  }

  lemma PropagateEffect(s: State, k: nat, s': State)
    requires PropagateEndStep(s, k, s')
    ensures SessionEffect(s, k, s')
  {
  }

  lemma ExpireEffect(s: State, k: nat, r: Request, s': State)
    requires ExpireStep(s, k, r, s')
    ensures SessionEffect(s, k, s')
  {
  }

  lemma ReceiverEffect(s: State, k: nat, a: ReceiverAction, s': State)
    requires ProtocolOk(s) && ReceiverStepOk(s, k, a, s')
    ensures SessionEffect(s, k, s')
  {
    match a
    case ReceiverReply(d) => DeliverEffect(s, k, d, s');
    case ReceiverDispose(b) => ReceiverDisposeEffect(s, k, s.sessions[k].receiver.work, b, s');
    case _ => ReceiverLocalKeeps(s.sessions[k], a, s'.sessions[k], s.ended);
  }

  lemma ReceiverDisposeEffect(s: State, k: nat, d: Disposal, b: DisposeAction, s': State)
    requires k < |s.sessions| && s.sessions[k].receiver == DisposeCalls(d) && ReceiverDisposeStep(s, k, d, b, s')
    ensures SessionEffect(s, k, s')
  {
    ReceiverDisposeFrame(s, k, d, b, s');
  }

  lemma CheckEffect(s: State, k: nat, i: nat, a: CheckAction, s': State)
    requires ProtocolOk(s) && CheckStepOk(s, k, i, a, s')
    ensures SessionEffect(s, k, s')
  {
    assert CheckOk(s.sessions[k], s.sessions[k].checks[i]);
    CheckSteps(s.sessions[k], i, s'.sessions[k]);
  }

  lemma PushCloseKeeps(s: State, a: Action, s': State)
    requires CloseOk(s) && Step(s, a, s')
    requires a.Enqueue? || a.PushBegin? || a.PushAdmit? || a.PushGiveUp? || a.PushFail?
    ensures CloseOk(s')
  {
  }

  lemma CloserKeeps(s: State, a: CloseAction, s': State)
    requires CloseOk(s) && CloseStepOk(s, a, s')
    ensures CloseOk(s')
  {
  }

  lemma ContextCloseKeeps(s: State, a: Action, s': State)
    requires CloseOk(s) && Step(s, a, s') && (a.EndCallContext? || a.EndParentContext?)
    ensures CloseOk(s')
  {
  }

  lemma StepCloseKeeps(s: State, a: Action, s': State)
    requires CloseOk(s) && ProtocolOk(s) && Step(s, a, s')
    ensures CloseOk(s')
  {
    if OfSession(a) {
      SessionStepCloseKeeps(s, a.k, a, s');
    } else {
      ChannelStepCloseKeeps(s, a, s');
    }
  }

  lemma ChannelStepCloseKeeps(s: State, a: Action, s': State)
    requires CloseOk(s) && ProtocolOk(s) && Step(s, a, s') && !OfSession(a)
    ensures CloseOk(s')
  {
    if a.RunStep? {
      RunCloseKeeps(s, a.run, s');
    } else {
      EntryCloseKeeps(s, a, s');
    }
  }

  lemma EntryCloseKeeps(s: State, a: Action, s': State)
    requires CloseOk(s) && Step(s, a, s') && !OfSession(a) && !a.RunStep?
    ensures CloseOk(s')
  {
    if a.CloseStep? {
      CloserKeeps(s, a.close, s');
    } else if a.EndCallContext? || a.EndParentContext? {
      ContextCloseKeeps(s, a, s');
    } else {
      PushCloseKeeps(s, a, s');
    }
  }

  lemma SessionStepCloseKeeps(s: State, k: nat, a: Action, s': State)
    requires CloseOk(s) && ProtocolOk(s) && Step(s, a, s') && OfSession(a) && a.k == k
    ensures CloseOk(s')
  {
    SessionStepEffect(s, a, s');
    SessionCloseKeeps(s, k, s');
  }

  lemma SessionStepEffect(s: State, a: Action, s': State)
    requires ProtocolOk(s) && Step(s, a, s') && OfSession(a)
    ensures SessionEffect(s, a.k, s')
  {
    if a.ReceiverStep? {
      ReceiverEffect(s, a.k, a.receive, s');
    } else if a.CheckStep? {
      CheckEffect(s, a.k, a.i, a.check, s');
    } else if a.WatcherStep? {
      WatcherEffect(s, a.k, a.goAway, s');
    } else if a.Expire? {
      ExpireEffect(s, a.k, a.req, s');
    } else {
      PropagateEffect(s, a.k, s');
    }
  }
}
