/**
 * The atomic steps of an outbound channel. Each step is one lock region, one channel operation,
 * or one atomic load, store or compare-and-swap of the source. Results of gRPC operations,
 * timers, and which ready case a select takes are the choices in the action.
 */
module ChannelSteps {
  import opened Requests
  import opened PendingTable
  import opened ChannelState

  datatype DisposeAction = Pick(req: Request) | Push(admit: bool) | ReportDown | Report(delivered: bool)

  datatype RunAction =
    | Proceed
    | TakeQueued(refused: bool)
    | Retry
    | OpenFails(err: Err)
    | SeeDrain
    | AddCall(seen: set<nat>)
    | SendOk
    | SendFails(err: Err)
    | Reply(delivered: bool)
    | RunDispose(dispose: DisposeAction)

  datatype ReceiverAction =
    | Go
    | HeaderAccepts
    | GotFrame(frame: Frame)
    | ReceiveFails(err: Err)
    | ReceiverReply(delivered: bool)
    | ReceiverDispose(dispose: DisposeAction)

  datatype CheckAction = Advance | CheckDispose(dispose: DisposeAction)

  datatype CloseAction = CloseProceed | CloseTake | CloseReply(delivered: bool)

  datatype Action =
    | EndCallContext(id: nat)
    | EndParentContext
    | PropagateEnd(k: nat)
    | Enqueue(req: Request, wait: bool)
    | PushBegin(req: Request, admit: bool)
    | PushAdmit(req: Request)
    | PushGiveUp(req: Request, channelEnded: bool)
    | PushFail(req: Request, delivered: bool)
    | RunStep(run: RunAction)
    | ReceiverStep(k: nat, receive: ReceiverAction)
    | WatcherStep(k: nat, goAway: bool)
    | CheckStep(k: nat, i: nat, check: CheckAction)
    | Expire(k: nat, req: Request)
    | CloseStep(close: CloseAction)

  /** A step of a session outside the run loop. */
  predicate OfSession(a: Action) {
    a.ReceiverStep? || a.CheckStep? || a.WatcherStep? || a.Expire? || a.PropagateEnd?
  }

  // ---- shared pieces ----

  function Put(s: State, k: nat, x: Session): State
    requires k < |s.sessions|
  {
    s.(sessions := s.sessions[k := x])
  }

  function PutRun(s: State, k: nat, x: Session, pc: RunPc): State
    requires k < |s.sessions|
  {
    s.(sessions := s.sessions[k := x], run := pc)
  }

  /** `deliver` drops a response only if the context of the request has ended. */
  predicate CanSettle(s: State, r: Request, delivered: bool) {
    if r.hasChannel then delivered || r.id in s.ended else !delivered
  }

  function Settle(s: State, r: Request, delivered: bool): State {
    s.(settled := s.settled + {r},
       answers := if delivered then s.answers + multiset{r} else s.answers)
  }

  predicate HasRoom(s: State) {
    |s.queue| < s.capacity
  }

  function SpawnCheck(x: Session): Session {
    x.(checks := x.checks + [LoadDraining])
  }

  function Calls(t: Table): set<Request> {
    set id | id in t.calls :: t.calls[id].req
  }

  function DrainAll(t: Table, err: Option<Err>): Disposal {
    Disposal(err, Calls(t), Idle)
  }

  // ---- contexts ----

  predicate EndCallContextStep(s: State, id: nat, s': State) {
    s' == s.(ended := s.ended + {id})
  }

  predicate PropagateEndStep(s: State, k: nat, s': State) {
    s.ctxEnded && k < |s.sessions| && s' == Put(s, k, s.sessions[k].(done := true))
  }

  // ---- sendQueue.push on behalf of Enqueue ----

  predicate EnqueueStep(s: State, r: Request, wait: bool, s': State) {
    && (forall q <- s.issued :: q.id != r.id)
    && !(r.oneway && r.streaming)
    && (r.WantServerResponse() ==> !wait)
    && s' == s.(pushing := s.pushing[r := Begin(wait)], issued := s.issued + {r})
  }

  predicate PushBeginStep(s: State, r: Request, admit: bool, s': State) {
    && r in s.pushing && s.pushing[r].Begin?
    && if s.queueClosed then s' == s.(pushing := s.pushing[r := Failing(NodeClosed)])
       else if s.pushing[r].wait then s' == s.(pushing := s.pushing[r := Waiting])
       else if admit then HasRoom(s) && s' == s.(queue := s.queue + [r], pushing := s.pushing - {r})
       else !HasRoom(s) && s' == s.(pushing := s.pushing[r := Failing(SendQueueFull)])
  }

  predicate PushAdmitStep(s: State, r: Request, s': State) {
    && r in s.pushing && s.pushing[r].Waiting? && HasRoom(s)
    && s' == s.(queue := s.queue + [r], pushing := s.pushing - {r})
  }

  predicate PushGiveUpStep(s: State, r: Request, channelEnded: bool, s': State) {
    && r in s.pushing && s.pushing[r].Waiting?
    && (if channelEnded then s.ctxEnded else r.id in s.ended)
    && s' == s.(pushing := s.pushing[r := Failing(if channelEnded then NodeClosed else ContextEnded)])
  }

  predicate PushFailStep(s: State, r: Request, delivered: bool, s': State) {
    && r in s.pushing && s.pushing[r].Failing? && CanSettle(s, r, delivered)
    && s' == Settle(s.(pushing := s.pushing - {r}), r, delivered)
  }

  // ---- session.end: retry or fail the drained calls of session k ----

  /** The decision of `retryOrFail`, up to the channel-context check for a streaming call. */
  function Decide(x: Session, err: Option<Err>, r: Request): Current {
    if x.verdicts > 0 && x.refusal.Some? then Fail(r, x.refusal.value)
    else if err == Some(ResourceExhausted) then Fail(r, ResourceExhausted)
    else if !r.streaming then Requeue(r)
    else Down(r)
  }

  function Record(x: Session, c: Current): Session {
    match c
    case Requeue(r) => x.(requeued := x.requeued + {r})
    case Fail(r, e) => x.(failed := x.failed[r := e])
    case _ => x
  }

  /** Whether the loop d in `session.end` of session k can take step a. */
  predicate CanDispose(s: State, d: Disposal, a: DisposeAction) {
    match (d.current, a)
    case (Idle, Pick(r)) => r in d.todo
    case (Requeue(_), Push(admit)) => s.queueClosed || (admit <==> HasRoom(s))
    case (Down(_), ReportDown) => true
    case (Rejected(r, _), Report(delivered)) => CanSettle(s, r, delivered)
    case (Fail(r, _), Report(delivered)) => CanSettle(s, r, delivered)
    case _ => false
  }

  /** The loop after step a. */
  function Rest(s: State, x: Session, d: Disposal, a: DisposeAction): Disposal
    requires CanDispose(s, d, a)
  {
    match a
    case Pick(r) => d.(todo := d.todo - {r}, current := Decide(x, d.err, r))
    case Push(admit) =>
      d.(current := if s.queueClosed then Rejected(d.current.req, NodeClosed)
                    else if admit then Idle
                    else Rejected(d.current.req, SendQueueFull))
    case ReportDown => d.(current := Fail(d.current.req, if s.ctxEnded then NodeClosed else StreamDown))
    case Report(_) => d.(current := Idle)
  }

  /** Everything else after step a: the queue, the responses, and the history of session k. */
  function Disposed(s: State, k: nat, d: Disposal, a: DisposeAction): State
    requires k < |s.sessions| && CanDispose(s, d, a)
  {
    match a
    case Pick(_) => Put(s, k, Record(s.sessions[k], Rest(s, s.sessions[k], d, a).current))
    case Push(admit) => if !s.queueClosed && admit then s.(queue := s.queue + [d.current.req]) else s
    case ReportDown => Put(s, k, Record(s.sessions[k], Rest(s, s.sessions[k], d, a).current))
    case Report(delivered) => Settle(s, d.current.req, delivered)
  }

  predicate WorkDone(d: Disposal) {
    d.todo == {} && d.current.Idle?
  }

  // ---- the run loop and the send loop ----

  function SendLoop(k: nat, hand: Option<Request>): RunPc {
    match hand
    case None => Select(k)
    case Some(r) => CheckEnded(k, r)
  }

  /** `streamFailed`: fail the request in hand with err, or with ErrNodeClosed on a closed channel. */
  function AfterFailure(s: State, hand: Option<Request>, err: Err): RunPc {
    if hand.None? then Await else FailHand(hand.value, if s.ctxEnded then NodeClosed else err, false)
  }

  function BackoffAfter(s: State, before: Option<Err>, err: Err): Option<Err> {
    if !s.ctxEnded && IsRefusal(err) then Some(err) else before
  }

  /** The run loop after `outcome` reported that the stream was not refused. */
  function AfterStream(s: State, x: Session, hand: Option<Request>): RunPc {
    if hand.Some? || (x.draining && s.eager) then CheckContext(hand) else Await
  }

  /** The latest refusal after `outcome` reported whether the stream was accepted and refused. */
  function BackoffOf(s: State, x: Session, refusal: Option<Err>): Option<Err> {
    var before := if x.accepted then None else s.backoff;
    if refusal.Some? then BackoffAfter(s, before, refusal.value) else before
  }

  /** The run loop while it waits for a request or a timer. */
  predicate AwaitStep(s: State, a: RunAction, s': State) {
    match (s.run, a)
    case (Await, Proceed) => s.ctxEnded && s' == s.(run := ExitLock)
    case (Await, TakeQueued(refused)) =>
      && s.queue != []
      && (refused ==> s.backoff.Some?)
      && s' == s.(queue := s.queue[1..],
                  run := if refused then FailRefused(s.queue[0], s.backoff.value)
                         else CheckContext(Some(s.queue[0])))
    case (Await, Retry) => s.eager && s' == s.(run := CheckContext(None))
    case (FailRefused(r, _), Reply(d)) => CanSettle(s, r, d) && s' == Settle(s, r, d).(run := Await)
    case _ => false
  }

  /** The run loop while it opens a stream. */
  predicate OpenStep(s: State, a: RunAction, s': State) {
    match (s.run, a)
    case (CheckContext(h), Proceed) =>
      s' == s.(run := if !s.ctxEnded then Open(h)
                      else if h.Some? then FailHand(h.value, NodeClosed, true) else ExitLock)
    case (FailHand(r, _, exit), Reply(d)) =>
      CanSettle(s, r, d) && s' == Settle(s, r, d).(run := if exit then ExitLock else Await)
    case (Open(h), OpenFails(e)) =>
      s' == s.(run := AfterFailure(s, h, e), backoff := BackoffAfter(s, s.backoff, e))
    case (Open(h), Proceed) =>
      s' == s.(sessions := s.sessions + [NEW_SESSION], run := SendLoop(|s.sessions|, h))
    case _ => false
  }

  /** The deferred close of the send queue when the run loop returns. */
  predicate ExitStep(s: State, a: RunAction, s': State) {
    match (s.run, a)
    case (ExitLock, Proceed) => NoReaders(s) && s' == s.(queueClosed := true, run := ExitDrain)
    case (ExitDrain, TakeQueued(_)) =>
      s.queue != [] && s' == s.(queue := s.queue[1..], run := ExitFail(s.queue[0]))
    case (ExitFail(r), Reply(d)) => CanSettle(s, r, d) && s' == Settle(s, r, d).(run := ExitDrain)
    case (ExitDrain, Proceed) => s.queue == [] && s' == s.(run := Exited)
    case _ => false
  }

  /** The send loop of session k takes a request and checks whether to send it. */
  predicate TakeStep(s: State, k: nat, a: RunAction, s': State)
    requires k < |s.sessions|
  {
    var x := s.sessions[k];
    match (s.run, a)
    case (Select(_), Proceed) => x.done && s' == s.(run := StopSending(k, None))
    case (Select(_), SeeDrain) => x.drainClosed && s' == s.(run := StopSending(k, None))
    case (Select(_), TakeQueued(_)) =>
      s.queue != [] && s' == s.(queue := s.queue[1..], run := CheckEnded(k, s.queue[0]))
    case (CheckEnded(_, r), Proceed) =>
      s' == s.(run := if x.done then StopSending(k, Some(r)) else CheckDraining(k, r))
    case (CheckDraining(_, r), Proceed) =>
      s' == s.(run := if x.draining then StopSending(k, Some(r)) else CheckCall(k, r))
    case _ => false
  }

  predicate AddStep(s: State, k: nat, a: RunAction, s': State)
    requires k < |s.sessions|
  {
    && s.run.Add? && a.AddCall?
    && var x, r := s.sessions[k], s.run.req;
    if !r.WantServerResponse() then s' == s.(run := Send(k, r))
    else if x.table.closed then s' == s.(run := StopSending(k, Some(r)))
    else
      && a.seen <= s.ended
      && s' == PutRun(s, k, x.(table := Added(x.table, r, a.seen), added := x.added + {r}), Send(k, r))
          .(settled := s.settled + Swept(x.table, a.seen))
  }

  /** The send loop checks the context of its request, sends the request, and confirms it. */
  predicate SendStep(s: State, k: nat, a: RunAction, s': State)
    requires k < |s.sessions|
  {
    match (s.run, a)
    case (CheckCall(_, r), Proceed) =>
      s' == s.(run := if r.id in s.ended then FailEnded(k, r) else Add(k, r))
    case (FailEnded(_, r), Reply(d)) => CanSettle(s, r, d) && s' == Settle(s, r, d).(run := Select(k))
    case (Send(_, r), SendOk) =>
      s' == s.(run := if r.WantServerResponse() then Select(k) else Confirm(k, r))
    case (Confirm(_, r), Reply(d)) => CanSettle(s, r, d) && s' == Settle(s, r, d).(run := Select(k))
    case (Send(_, r), SendFails(e)) => s' == s.(run := SendErr(k, r, e))
    case _ => false
  }

  predicate FailOnewayStep(s: State, k: nat, a: RunAction, s': State) {
    && s.run.FailOneway? && a.Reply? && CanSettle(s, s.run.req, a.delivered)
    && s' == Settle(s, s.run.req, a.delivered).(run := StopSending(k, None))
  }

  /** The calls an add removes because their contexts have ended. */
  function Swept(t: Table, seen: set<nat>): set<Request> {
    if SweepDue(t) then set id | id in t.calls && id in seen :: t.calls[id].req else {}
  }

  /** `sendFailed`: which goroutine disposes of the pending calls after a send failed. */
  predicate SendFailedLocal(x: Session, pc: RunPc, x': Session, pc': RunPc) {
    match pc
    case SendErr(k, r, e) =>
      if x.handoff == Closed then x' == x && pc' == CancelSend(k, r, e)
      else if e != EndOfStream then x' == x.(broke := Some(e)) && pc' == BreakCancel(k, r, e)
      else if x.handoff == Accepted then x' == x && pc' == AfterSendErr(k, r, e, true)
      else x.handoff == Fresh && x' == x.(handoff := SendFailed) && pc' == CancelSend(k, r, e)
    case CancelSend(k, r, e) => x' == x.(done := true) && pc' == AfterSendErr(k, r, e, true)
    case BreakCancel(k, r, e) => x' == x.(done := true) && pc' == BreakDrain(k, r, e)
    case _ => false
  }

  /** The end of `send` after a failure, and `stopSending`. */
  predicate FinishLocal(x: Session, pc: RunPc, x': Session, pc': RunPc) {
    match pc
    case AfterSendErr(k, r, e, decides) =>
      && x' == x
      && if r.WantServerResponse() then pc' == StopSending(k, None)
         else if decides then
           && x.verdicts > 0
           && pc' == FailOneway(k, r, if x.refusal.Some? then x.refusal.value else e)
         else pc' == FailOneway(k, r, e)
    case StopSending(k, h) => x' == SpawnCheck(x.(sendStopped := true)) && pc' == Outcome(k, h)
    case _ => false
  }

  /** Steps of the send loop that change only session k. */
  predicate RunLocalStep(s: State, k: nat, a: RunAction, s': State)
    requires k < |s.sessions|
  {
    && a.Proceed?
    && |s'.sessions| == |s.sessions| && s' == PutRun(s, k, s'.sessions[k], s'.run)
    && (|| SendFailedLocal(s.sessions[k], s.run, s'.sessions[k], s'.run)
        || FinishLocal(s.sessions[k], s.run, s'.sessions[k], s'.run))
  }

  /** `session.end` on behalf of a send that failed. */
  predicate BreakStep(s: State, k: nat, a: RunAction, s': State)
    requires k < |s.sessions|
  {
    var x := s.sessions[k];
    match (s.run, a)
    case (BreakDrain(_, r, e), Proceed) =>
      s' == PutRun(s, k, x.(table := Drained(x.table), broken := x.broken + Calls(x.table)),
                   BreakDispose(k, r, e, DrainAll(x.table, Some(e))))
    case (BreakDispose(_, r, e, d), RunDispose(b)) =>
      CanDispose(s, d, b) && s' == Disposed(s, k, d, b).(run := BreakDispose(k, r, e, Rest(s, x, d, b)))
    case (BreakDispose(_, r, e, d), Proceed) => WorkDone(d) && s' == s.(run := AfterSendErr(k, r, e, false))
    case _ => false
  }

  /** `outcome`, and what the run loop does next. */
  predicate OutcomeStep(s: State, k: nat, a: RunAction, s': State)
    requires k < |s.sessions|
  {
    var x := s.sessions[k];
    match (s.run, a)
    case (Outcome(_, h), Proceed) =>
      if x.done then s' == s.(run := AwaitVerdict(k, h))
      else s' == s.(run := AfterStream(s, x, h), backoff := BackoffOf(s, x, None))
    case (AwaitVerdict(_, h), Proceed) =>
      && x.verdicts > 0
      && s' == s.(run := if x.refusal.Some? then AfterFailure(s, h, x.refusal.value) else AfterStream(s, x, h),
                  backoff := BackoffOf(s, x, x.refusal))
    case _ => false
  }

  /** The session whose send loop, or whose end, the run loop is in. */
  function RunSession(pc: RunPc): Option<nat> {
    match pc
    case Select(k) => Some(k)
    case CheckEnded(k, _) => Some(k)
    case CheckDraining(k, _) => Some(k)
    case CheckCall(k, _) => Some(k)
    case FailEnded(k, _) => Some(k)
    case Add(k, _) => Some(k)
    case Send(k, _) => Some(k)
    case Confirm(k, _) => Some(k)
    case SendErr(k, _, _) => Some(k)
    case CancelSend(k, _, _) => Some(k)
    case BreakCancel(k, _, _) => Some(k)
    case BreakDrain(k, _, _) => Some(k)
    case BreakDispose(k, _, _, _) => Some(k)
    case AfterSendErr(k, _, _, _) => Some(k)
    case FailOneway(k, _, _) => Some(k)
    case StopSending(k, _) => Some(k)
    case Outcome(k, _) => Some(k)
    case AwaitVerdict(k, _) => Some(k)
    case _ => None
  }

  predicate RunStepOk(s: State, a: RunAction, s': State) {
    match RunSession(s.run)
    case None => AwaitStep(s, a, s') || OpenStep(s, a, s') || ExitStep(s, a, s')
    case Some(k) =>
      && k < |s.sessions|
      && (|| TakeStep(s, k, a, s') || SendStep(s, k, a, s') || AddStep(s, k, a, s') || FailOnewayStep(s, k, a, s')
          || RunLocalStep(s, k, a, s') || BreakStep(s, k, a, s') || OutcomeStep(s, k, a, s'))
  }

  // ---- the receiving goroutine of session k ----

  /** Waiting for the header or a frame; the first of them accepts the stream. */
  predicate ReceiveLocal(x: Session, a: ReceiverAction, x': Session) {
    match x.receiver
    case AwaitHeader => x' == x.(receiver := if a.HeaderAccepts? then StoreAccepted(ToReceive) else Receive)
    case Receive =>
      || (a.GotFrame? && x' == x.(receiver := LoadAccepted(a.frame)))
      || (a.ReceiveFails? && x' == x.(receiver := SwapHandoff(a.err)))
    case LoadAccepted(f) => x' == x.(receiver := if x.accepted then Handle(f) else StoreAccepted(ToHandle(f)))
    case _ => false
  }

  /** `accept`. */
  predicate AcceptLocal(x: Session, x': Session) {
    match x.receiver
    case StoreAccepted(n) => x' == x.(accepted := true, receiver := StoreHandoff(n))
    case StoreHandoff(n) => x' == x.(handoff := Accepted, receiver := CloseVerdict(n))
    case CloseVerdict(n) =>
      x' == x.(verdicts := x.verdicts + 1, receiver := if n.ToHandle? then Handle(n.frame) else Receive)
    case _ => false
  }

  /** `handle`: route frame f. */
  predicate HandleLocal(x: Session, f: Frame, x': Session) {
    if f.PeerRequest? || f.id !in x.table.calls then x' == x.(receiver := StartCheck)
    else
      var r := x.table.calls[f.id].req;
      if r.streaming then x' == x.(receiver := DeliverStreaming(r))
      else x' == x.(table := Taken(x.table, f.id), taken := x.taken + {r}, receiver := Deliver(r))
  }

  /** `receiveFailed`, up to the loop that disposes of the pending calls. */
  predicate ReceiveFailedLocal(x: Session, x': Session) {
    match x.receiver
    case SwapHandoff(e) =>
      x' == x.(handoff := Closed, receiver := if x.handoff == Accepted then EndSession(e) else SetRefusal(e))
    case SetRefusal(e) =>
      x' == x.(refusal := if IsRefusal(e) then Some(e) else x.refusal, receiver := CloseRefused(e))
    case CloseRefused(e) => x' == x.(verdicts := x.verdicts + 1, receiver := EndSession(e))
    case EndSession(e) => x' == x.(done := true, receiver := DrainCalls(e))
    case DrainCalls(e) =>
      x' == x.(table := Drained(x.table), receiver := DisposeCalls(DrainAll(x.table, Some(e))))
    case DisposeCalls(d) => WorkDone(d) && x' == x.(receiver := ReceiverDone)
    case _ => false
  }

  predicate Receiving(pc: Receiver) {
    pc.AwaitHeader? || pc.Receive? || pc.LoadAccepted?
  }

  predicate Accepting(pc: Receiver) {
    pc.StoreAccepted? || pc.StoreHandoff? || pc.CloseVerdict?
  }

  /** Steps that change only the session itself. */
  predicate ReceiverLocal(x: Session, a: ReceiverAction, x': Session) {
    if Receiving(x.receiver) then ReceiveLocal(x, a, x')
    else if Accepting(x.receiver) then AcceptLocal(x, x')
    else if x.receiver.StartCheck? then x' == SpawnCheck(x.(receiver := Receive))
    else if x.receiver.Handle? then HandleLocal(x, x.receiver.frame, x')
    else ReceiveFailedLocal(x, x')
  }

  predicate ReceiverDisposeStep(s: State, k: nat, d: Disposal, b: DisposeAction, s': State)
    requires k < |s.sessions|
  {
    && CanDispose(s, d, b)
    && var s1 := Disposed(s, k, d, b);
    s' == Put(s1, k, s1.sessions[k].(receiver := DisposeCalls(Rest(s, s.sessions[k], d, b))))
  }

  predicate DeliverStep(s: State, k: nat, delivered: bool, s': State)
    requires k < |s.sessions|
  {
    var x := s.sessions[k];
    match x.receiver
    case Deliver(r) =>
      CanSettle(s, r, delivered) && s' == Settle(Put(s, k, x.(receiver := StartCheck)), r, delivered)
    case DeliverStreaming(r) =>
      && CanSettle(s, r, delivered)
      && s' == Put(s, k, x.(receiver := StartCheck))
            .(answers := if delivered then s.answers + multiset{r} else s.answers)
    case _ => false
  }

  predicate ReceiverStepOk(s: State, k: nat, a: ReceiverAction, s': State) {
    && k < |s.sessions|
    && match a
       case ReceiverReply(d) => DeliverStep(s, k, d, s')
       case ReceiverDispose(b) =>
         && s.sessions[k].receiver.DisposeCalls?
         && ReceiverDisposeStep(s, k, s.sessions[k].receiver.work, b, s')
       case _ =>
         && |s'.sessions| == |s.sessions| && s' == Put(s, k, s'.sessions[k])
         && ReceiverLocal(s.sessions[k], a, s'.sessions[k])
  }

  // ---- the GOAWAY watcher, endIfDrained, and the expiry callbacks of session k ----

  predicate WatcherLocal(x: Session, goAway: bool, x': Session) {
    match x.watcher
    case Watch =>
      if goAway then x' == x.(draining := true, watcher := WatchCalls)
      else x.done && x' == x.(watcher := WatcherDone)
    case WatchCalls => x' == x.(table := Watched(x.table), watcher := CloseDrain)
    case CloseDrain => x' == x.(drainClosed := true, watcher := WatcherCheck)
    case WatcherCheck => x' == SpawnCheck(x.(watcher := WatcherDone))
    case WatcherDone => false
  }

  predicate WatcherStepOk(s: State, k: nat, goAway: bool, s': State) {
    && k < |s.sessions| == |s'.sessions| && s' == Put(s, k, s'.sessions[k])
    && WatcherLocal(s.sessions[k], goAway, s'.sessions[k])
  }

  predicate CheckLocal(x: Session, i: nat, x': Session)
    requires i < |x.checks|
  {
    match x.checks[i]
    case LoadDraining => x' == x.(checks := x.checks[i := if x.draining then LoadStopped else Finished])
    case LoadStopped => x' == x.(checks := x.checks[i := if x.sendStopped then LoadEmpty else Finished])
    case LoadEmpty => x' == x.(checks := x.checks[i := if x.table.calls == map[] then Cancel else Finished])
    case Cancel => x' == x.(done := true, checks := x.checks[i := Drain])
    case Drain =>
      x' == x.(table := Drained(x.table), checks := x.checks[i := Dispose(DrainAll(x.table, None))])
    case Dispose(d) => WorkDone(d) && x' == x.(checks := x.checks[i := Finished])
    case Finished => false
  }

  predicate CheckStepOk(s: State, k: nat, i: nat, a: CheckAction, s': State) {
    && k < |s.sessions| && i < |s.sessions[k].checks|
    && var x := s.sessions[k];
    match a
    case Advance =>
      && |s'.sessions| == |s.sessions| && s' == Put(s, k, s'.sessions[k])
      && CheckLocal(x, i, s'.sessions[k])
    case CheckDispose(b) =>
      && x.checks[i].Dispose? && CanDispose(s, x.checks[i].work, b)
      && var s1 := Disposed(s, k, x.checks[i].work, b);
      s' == Put(s1, k, s1.sessions[k].(checks := x.checks[i := Dispose(Rest(s, x, x.checks[i].work, b))]))
  }

  predicate ExpireStep(s: State, k: nat, r: Request, s': State) {
    && k < |s.sessions| && r.id in s.ended
    && var x := s.sessions[k];
    && Holds(x.table, r) && x.table.calls[r.id].watched
    && s' == Put(s, k, SpawnCheck(x.(table := Expired(x.table, r.id, x.table.calls[r.id].serial))))
        .(settled := s.settled + {r})
  }

  // ---- Close ----

  predicate AllDone(s: State) {
    && s.run.Exited?
    && (forall k | 0 <= k < |s.sessions| ::
          s.sessions[k].receiver.ReceiverDone? && s.sessions[k].watcher.WatcherDone?)
  }

  predicate CloseStepOk(s: State, a: CloseAction, s': State) {
    match (s.close, a)
    case (NotClosed, CloseProceed) => s' == s.(ctxEnded := true, close := CloseLock)
    case (CloseLock, CloseProceed) => NoReaders(s) && s' == s.(queueClosed := true, close := CloseDrainQueue)
    case (CloseDrainQueue, CloseTake) =>
      s.queue != [] && s' == s.(queue := s.queue[1..], close := CloseFail(s.queue[0]))
    case (CloseFail(r), CloseReply(d)) => CanSettle(s, r, d) && s' == Settle(s, r, d).(close := CloseDrainQueue)
    case (CloseDrainQueue, CloseProceed) => s.queue == [] && s' == s.(close := CloseWait)
    case (CloseWait, CloseProceed) => AllDone(s) && s' == s.(close := CloseReturned)
    case _ => false
  }

  // ---- all steps ----

  predicate Step(s: State, a: Action, s': State) {
    match a
    case EndCallContext(id) => EndCallContextStep(s, id, s')
    case EndParentContext => s' == s.(ctxEnded := true)
    case PropagateEnd(k) => PropagateEndStep(s, k, s')
    case Enqueue(r, wait) => EnqueueStep(s, r, wait, s')
    case PushBegin(r, admit) => PushBeginStep(s, r, admit, s')
    case PushAdmit(r) => PushAdmitStep(s, r, s')
    case PushGiveUp(r, channelEnded) => PushGiveUpStep(s, r, channelEnded, s')
    case PushFail(r, delivered) => PushFailStep(s, r, delivered, s')
    case RunStep(b) => RunStepOk(s, b, s')
    case ReceiverStep(k, b) => ReceiverStepOk(s, k, b, s')
    case WatcherStep(k, goAway) => WatcherStepOk(s, k, goAway, s')
    case CheckStep(k, i, b) => CheckStepOk(s, k, i, b, s')
    case Expire(k, r) => ExpireStep(s, k, r, s')
    case CloseStep(b) => CloseStepOk(s, b, s')
  }

  /** A run: its states, from an initial one, and the action between each two of them. */
  predicate IsRun(states: seq<State>, actions: seq<Action>) {
    && |states| == |actions| + 1
    && Init(states[0])
    && (forall i {:trigger actions[i]} | 0 <= i < |actions| :: Step(states[i], actions[i], states[i + 1]))
  }
}
