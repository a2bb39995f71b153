/**
 * What every step keeps about one session: the verdict is closed once and after the refusal is
 * set, a drained session ends with nothing left to do, and a refusal reaches every pending call.
 */
module ChannelSessions {
  import opened Requests
  import opened PendingTable
  import opened ChannelState
  import opened ChannelSteps

  predicate Undecided(x: Session) {
    x.verdicts == 0 && (x.handoff == Fresh || x.handoff == SendFailed) && x.refusal.None?
  }

  predicate IsAccepted(x: Session) {
    x.accepted && x.verdicts == 1 && x.handoff == Accepted && x.refusal.None?
  }

  /** Receiving has ended and the verdict is out. */
  predicate Decided(x: Session) {
    x.verdicts == 1 && x.handoff == Closed && (x.accepted ==> x.refusal.None?)
  }

  /** The handshake flags at each point of the receiving goroutine, the only one to set them. */
  predicate VerdictOk(x: Session) {
    match x.receiver
    case AwaitHeader => !x.accepted && Undecided(x)
    case StoreAccepted(_) => !x.accepted && Undecided(x)
    case StoreHandoff(_) => x.accepted && Undecided(x)
    case CloseVerdict(_) => x.accepted && x.verdicts == 0 && x.handoff == Accepted && x.refusal.None?
    case Receive => if x.accepted then IsAccepted(x) else Undecided(x)
    case LoadAccepted(_) => if x.accepted then IsAccepted(x) else Undecided(x)
    case SwapHandoff(_) => if x.accepted then IsAccepted(x) else Undecided(x)
    case SetRefusal(_) => !x.accepted && x.verdicts == 0 && x.handoff == Closed && x.refusal.None?
    case CloseRefused(_) => !x.accepted && x.verdicts == 0 && x.handoff == Closed
    case EndSession(_) => Decided(x)
    case DrainCalls(_) => Decided(x) && x.done
    case DisposeCalls(_) => Decided(x) && x.done && x.table.closed
    case ReceiverDone => Decided(x) && x.done && x.table.closed
    case DeliverStreaming(r) => IsAccepted(x) && r.streaming
    case _ => IsAccepted(x)
  }

  predicate CheckOk(x: Session, c: Check) {
    match c
    case LoadDraining => true
    case LoadStopped => x.draining
    case LoadEmpty => x.draining && x.sendStopped
    case Cancel => x.draining && x.sendStopped && x.table.calls == map[]
    case Drain => x.draining && x.sendStopped && x.table.calls == map[] && x.done
    case Dispose(d) => x.draining && x.sendStopped && x.table.calls == map[] && x.done && WorkDone(d)
    case Finished => true
  }

  /** What an endIfDrained call has seen so far still holds; the drain path ends an empty session. */
  predicate ChecksOk(x: Session) {
    forall i | 0 <= i < |x.checks| :: CheckOk(x, x.checks[i])
  }

  predicate InProgress(c: Check) {
    c.LoadDraining? || c.LoadStopped? || c.LoadEmpty? || c.Cancel?
  }

  /** An endIfDrained call is in progress, or a goroutine is on its way to make one. */
  predicate Outstanding(x: Session) {
    || (exists i | 0 <= i < |x.checks| :: InProgress(x.checks[i]))
    || x.receiver.Deliver? || x.receiver.StartCheck?
    || x.watcher.WatchCalls? || x.watcher.CloseDrain? || x.watcher.WatcherCheck?
  }

  predicate IsDrained(x: Session) {
    x.draining && x.sendStopped && x.table.calls == map[]
  }

  predicate DrainOk(x: Session) {
    IsDrained(x) && !x.done ==> Outstanding(x)
  }

  /** The calls that the receiving goroutine still has to decide about. */
  function Waits(pc: Receiver): set<Request> {
    if !pc.DisposeCalls? then {}
    else pc.work.todo + (if pc.work.current.Down? then {pc.work.current.req} else {})
  }

  /** The loop of a refused session only fails calls, and only with the refusal. */
  predicate FailsWith(d: Disposal, e: Err) {
    match d.current
    case Idle => true
    case Fail(_, f) => f == e
    case _ => false
  }

  /** No verdict yet, or a refusal. */
  predicate Refusable(x: Session) {
    x.verdicts == 0 || x.refusal.Some?
  }

  /**
   * Before the verdict only a broken send disposes of calls, and a refusal decides about all the
   * others: only calls that a broken send drained return to the queue, or fail with another error.
   */
  predicate RefusalOk(x: Session) {
    && (x.broken != {} ==> x.broke.Some?) && x.broke != Some(EndOfStream)
    && (forall r <- x.requeued :: !r.streaming)
    && (Refusable(x) ==>
          && x.requeued <= x.broken
          && (x.broke == Some(ResourceExhausted) ==> x.requeued == {})
          && (forall r <- x.failed :: r in x.broken || (x.verdicts > 0 && x.failed[r] == x.refusal.value))
          && (x.verdicts > 0 && x.receiver.DisposeCalls? ==> FailsWith(x.receiver.work, x.refusal.value)))
  }

  /** What became of a call sent on the session. */
  predicate Accounted(x: Session, ended: set<nat>, r: Request) {
    || Holds(x.table, r) || r in Waits(x.receiver) || r in x.broken
    || r in x.failed || r in x.requeued || r in x.taken || r.id in ended
  }

  predicate AddedOk(x: Session, ended: set<nat>) {
    && (x.taken != {} ==> x.accepted)
    && (forall r <- x.added :: Accounted(x, ended, r))
  }

  predicate SessionOk(x: Session, ended: set<nat>) {
    && WellKeyed(x.table)
    && VerdictOk(x) && ChecksOk(x) && DrainOk(x) && RefusalOk(x) && AddedOk(x, ended)
  }

  /** Once the verdict is closed it is final, and so is the refusal that was set before it. */
  predicate VerdictFinal(x: Session, x': Session) {
    x.verdicts > 0 ==> x'.verdicts == x.verdicts && x'.refusal == x.refusal
  }

  /** The flags that belong to the send loop are as before. */
  predicate SendSide(x: Session, x': Session) {
    && x'.sendStopped == x.sendStopped && x'.broke == x.broke && x'.broken == x.broken && (x.done ==> x'.done)
    && VerdictFinal(x, x')
  }

  /** A receiving step: it leaves the watcher alone and does not start from the end. */
  predicate ReceiverSide(x: Session, x': Session) {
    SendSide(x, x') && x'.watcher == x.watcher && !x.receiver.ReceiverDone?
  }

  // ---- receiving ----

  predicate Passive(pc: Receiver) {
    !pc.Deliver? && !pc.StartCheck? && (pc.DisposeCalls? ==> WorkDone(pc.work))
  }

  /** The receiving goroutine moves on, and the session changes only in flags that VerdictOk covers. */
  predicate PassiveStep(x: Session, x': Session) {
    && Passive(x.receiver) && !x'.receiver.DisposeCalls? && VerdictOk(x') && ReceiverSide(x, x')
    && x' == x.(receiver := x'.receiver, done := x'.done, accepted := x'.accepted, handoff := x'.handoff,
                verdicts := x'.verdicts, refusal := x'.refusal)
    && (x.accepted ==> x'.accepted) && x.verdicts <= x'.verdicts
  }

  lemma PassiveKeeps(x: Session, x': Session, ended: set<nat>)
    requires SessionOk(x, ended) && PassiveStep(x, x')
    ensures SessionOk(x', ended)
  {
  }

  lemma ReceivePassive(x: Session, a: ReceiverAction, x': Session)
    requires VerdictOk(x) && ReceiveLocal(x, a, x')
    ensures PassiveStep(x, x')
  {
  }

  lemma AcceptPassive(x: Session, x': Session)
    requires VerdictOk(x) && AcceptLocal(x, x')
    ensures PassiveStep(x, x')
  {
  }

  lemma FailedPassive(x: Session, x': Session)
    requires VerdictOk(x) && ReceiveFailedLocal(x, x') && !x.receiver.DrainCalls?
    ensures PassiveStep(x, x')
  {
  }

  lemma HandleKeeps(x: Session, f: Frame, x': Session, ended: set<nat>)
    requires SessionOk(x, ended) && x.receiver == Handle(f) && HandleLocal(x, f, x')
    ensures SessionOk(x', ended) && ReceiverSide(x, x')
  {
  }

  lemma DrainCallsKeeps(x: Session, x': Session, ended: set<nat>)
    requires SessionOk(x, ended) && x.receiver.DrainCalls? && ReceiveFailedLocal(x, x')
    ensures SessionOk(x', ended) && ReceiverSide(x, x')
  {
  }

  lemma SpawnKeeps(x: Session, x': Session, ended: set<nat>)
    requires SessionOk(x, ended)
    requires x' == SpawnCheck(x.(receiver := x'.receiver, watcher := x'.watcher, sendStopped := x'.sendStopped))
    requires x'.receiver == x.receiver || (x.receiver.StartCheck? && x'.receiver.Receive?)
    requires x.sendStopped ==> x'.sendStopped
    ensures SessionOk(x', ended)
  {
    assert InProgress(x'.checks[|x.checks|]);
  }

  /** A delivered response is followed by an endIfDrained call. */
  lemma DeliverKeeps(x: Session, x': Session, ended: set<nat>)
    requires SessionOk(x, ended) && (x.receiver.Deliver? || x.receiver.DeliverStreaming?)
    requires x' == x.(receiver := StartCheck)
    ensures SessionOk(x', ended)
  {
  }

  lemma ReceiverLocalKeeps(x: Session, a: ReceiverAction, x': Session, ended: set<nat>)
    requires SessionOk(x, ended) && ReceiverLocal(x, a, x')
    ensures SessionOk(x', ended) && ReceiverSide(x, x')
  {
    if x.receiver.StartCheck? {
      SpawnKeeps(x, x', ended);
    } else if x.receiver.Handle? {
      HandleKeeps(x, x.receiver.frame, x', ended);
    } else if x.receiver.DrainCalls? {
      DrainCallsKeeps(x, x', ended);
    } else {
      if Receiving(x.receiver) {
        ReceivePassive(x, a, x');
      } else if Accepting(x.receiver) {
        AcceptPassive(x, x');
      } else {
        FailedPassive(x, x');
      }
      PassiveKeeps(x, x', ended);
    }
  }

  // ---- the loop of session.end ----

  /** A broken send decides about a call that it drained. */
  lemma BrokenDecisionKeeps(x: Session, c: Current, x': Session, ended: set<nat>)
    requires SessionOk(x, ended) && x.broke.Some? && x' == Record(x, c)
    requires c.Requeue? ==> c.req in x.broken && !c.req.streaming && x.broke != Some(ResourceExhausted)
    requires c.Fail? ==> c.req in x.broken
    ensures SessionOk(x', ended)
  {
  }

  /** A decision of the receiving goroutine, once the verdict is out. */
  predicate GoodDecision(x: Session, r: Request, c: Current) {
    && ((c == Requeue(r) && !r.streaming) || c == Down(r) || (c.Fail? && c.req == r))
    && (x.refusal.Some? ==> c == Fail(r, x.refusal.value))
  }

  lemma DecideGood(x: Session, err: Option<Err>, r: Request)
    requires x.verdicts > 0
    ensures GoodDecision(x, r, Decide(x, err, r))
  {
  }

  lemma DecisionKeeps(x: Session, d: Disposal, d': Disposal, r: Request, c: Current, x': Session, ended: set<nat>)
    requires SessionOk(x, ended) && x.receiver == DisposeCalls(d) && GoodDecision(x, r, c)
    requires r in Waits(x.receiver) && d' == d.(todo := d.todo - {r}, current := c)
    requires d.current.Idle? || (d.current.Down? && d.current.req == r)
    requires x' == Record(x, c).(receiver := DisposeCalls(d'))
    ensures SessionOk(x', ended)
  {
    assert forall q <- Waits(x.receiver) :: q in Waits(x'.receiver) || q in x'.failed || q in x'.requeued;
  }

  lemma ReceiverPickKeeps(x: Session, d: Disposal, r: Request, x': Session, ended: set<nat>)
    requires SessionOk(x, ended) && x.receiver == DisposeCalls(d) && d.current.Idle? && r in d.todo
    requires var c := Decide(x, d.err, r);
      x' == Record(x, c).(receiver := DisposeCalls(d.(todo := d.todo - {r}, current := c)))
    ensures SessionOk(x', ended)
  {
    var c := Decide(x, d.err, r);
    DecideGood(x, d.err, r);
    DecisionKeeps(x, d, d.(todo := d.todo - {r}, current := c), r, c, x', ended);
  }

  lemma ReceiverReportDownKeeps(s: State, x: Session, d: Disposal, x': Session, ended: set<nat>)
    requires SessionOk(x, ended) && x.receiver == DisposeCalls(d) && CanDispose(s, d, ReportDown)
    requires var d' := Rest(s, x, d, ReportDown); x' == Record(x, d'.current).(receiver := DisposeCalls(d'))
    ensures SessionOk(x', ended)
  {
  }

  lemma ReceiverSettleKeeps(s: State, x: Session, d: Disposal, a: DisposeAction, x': Session, ended: set<nat>)
    requires SessionOk(x, ended) && x.receiver == DisposeCalls(d) && CanDispose(s, d, a) && (a.Push? || a.Report?)
    requires x' == x.(receiver := DisposeCalls(Rest(s, x, d, a)))
    ensures SessionOk(x', ended)
  {
  }

  // ---- the watcher, endIfDrained and expiry ----

  lemma WatcherKeeps(x: Session, goAway: bool, x': Session, ended: set<nat>)
    requires SessionOk(x, ended) && WatcherLocal(x, goAway, x')
    ensures SessionOk(x', ended)
  {
    match x.watcher
    case Watch => FlagKeeps(x, x', ended);
    case WatchCalls => WatchCallsKeeps(x, x', ended);
    case CloseDrain => FlagKeeps(x, x', ended);
    case WatcherCheck => SpawnKeeps(x, x', ended);
  }

  lemma WatchCallsKeeps(x: Session, x': Session, ended: set<nat>)
    requires SessionOk(x, ended) && x.watcher.WatchCalls?
    requires x' == x.(table := Watched(x.table), watcher := CloseDrain)
    ensures SessionOk(x', ended)
  {
  }

  lemma FlagKeeps(x: Session, x': Session, ended: set<nat>)
    requires SessionOk(x, ended)
    requires x' == x.(done := x'.done, draining := x'.draining, drainClosed := x'.drainClosed, watcher := x'.watcher)
    requires (x.done ==> x'.done) && (x.draining ==> x'.draining)
    requires || x'.done || x'.watcher.WatchCalls? || x'.watcher.WatcherCheck?
             || (x'.watcher == x.watcher && x'.draining == x.draining)
    ensures SessionOk(x', ended)
  {
  }

  lemma CheckKeeps(x: Session, i: nat, x': Session, ended: set<nat>)
    requires SessionOk(x, ended) && i < |x.checks| && CheckLocal(x, i, x')
    ensures SessionOk(x', ended)
  {
    CheckSteps(x, i, x');
    CheckMoves(x, i, x', ended);
  }

  /** What the step of one endIfDrained call does to the session. */
  lemma CheckSteps(x: Session, i: nat, x': Session)
    requires ChecksOk(x) && i < |x.checks| && CheckLocal(x, i, x')
    ensures |x'.checks| == |x.checks|
    ensures x' == x.(done := x'.done, table := x'.table, checks := x.checks[i := x'.checks[i]])
    ensures (x.done ==> x'.done) && x'.table.calls == x.table.calls && (x.table.closed ==> x'.table.closed)
    ensures x'.table.closed ==> x.table.closed || x.table.calls == map[]
    ensures CheckOk(x', x'.checks[i])
    ensures IsDrained(x') && !x'.done ==> InProgress(x'.checks[i])
  {
    assert CheckOk(x, x.checks[i]);
  }

  lemma CheckMoves(x: Session, i: nat, x': Session, ended: set<nat>)
    requires SessionOk(x, ended) && i < |x.checks| == |x'.checks|
    requires x' == x.(done := x'.done, table := x'.table, checks := x.checks[i := x'.checks[i]])
    requires (x.done ==> x'.done) && x'.table.calls == x.table.calls && (x.table.closed ==> x'.table.closed)
    requires x'.table.closed ==> x.table.closed || x.table.calls == map[]
    requires CheckOk(x', x'.checks[i])
    requires IsDrained(x') && !x'.done ==> InProgress(x'.checks[i])
    ensures SessionOk(x', ended)
  {
  }

  lemma ExpireKeeps(x: Session, r: Request, x': Session, ended: set<nat>)
    requires SessionOk(x, ended) && Holds(x.table, r) && r.id in ended
    requires x' == SpawnCheck(x.(table := Expired(x.table, r.id, x.table.calls[r.id].serial)))
    ensures SessionOk(x', ended)
  {
    assert InProgress(x'.checks[|x.checks|]);
  }

  // ---- the send loop ----

  lemma AddKeeps(x: Session, r: Request, seen: set<nat>, x': Session, ended: set<nat>)
    requires SessionOk(x, ended) && !x.sendStopped && !x.table.closed && seen <= ended && r.id !in x.table.calls
    requires x' == x.(table := Added(x.table, r, seen), added := x.added + {r})
    ensures SessionOk(x', ended)
  {
  }

  lemma SendFailedKeeps(x: Session, pc: RunPc, x': Session, pc': RunPc, ended: set<nat>)
    requires SessionOk(x, ended) && SendFailedLocal(x, pc, x', pc') && (pc.SendErr? ==> x.broke.None?)
    ensures SessionOk(x', ended)
  {
  }

  lemma BreakDrainKeeps(x: Session, x': Session, ended: set<nat>)
    requires SessionOk(x, ended) && x.broke.Some? && x.done
    requires x' == x.(table := Drained(x.table), broken := x.broken + Calls(x.table))
    ensures SessionOk(x', ended)
  {
    forall r | Holds(x.table, r)
      ensures r in x'.broken
    {
      assert r.id in x.table.calls;
    }
  }

  lemma MoreEnded(x: Session, ended: set<nat>, ended': set<nat>)
    requires SessionOk(x, ended) && ended <= ended'
    ensures SessionOk(x, ended')
  {
  }
}
