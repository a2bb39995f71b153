/**
 * The state of one outbound channel: its send queue, its run loop, the sessions it opened, and
 * the calls of `Enqueue` and `Close` in progress. A program counter stands for each goroutine;
 * its constructors are the points between two atomic operations.
 */
module ChannelState {
  import opened Requests
  import opened PendingTable

  /** The values of the atomic that decides who disposes of the pending calls. */
  datatype Handoff = Fresh | SendFailed | Accepted | Closed

  /** A call of `sendQueue.push` in progress; it holds the queue's read lock unless `Begin`. */
  datatype PushStage = Begin(wait: bool) | Waiting | Failing(err: Err)

  /** The call an end-of-session loop is at. `Rejected` holds the queue's read lock. */
  datatype Current =
    | Idle
    | Requeue(req: Request)
    | Rejected(req: Request, err: Err)
    | Down(req: Request)
    | Fail(req: Request, err: Err)

  /** The loop of `session.end` over the drained calls, after the session ended with `err`. */
  datatype Disposal = Disposal(err: Option<Err>, todo: set<Request>, current: Current)

  /** A call of `endIfDrained` in progress. */
  datatype Check =
    | LoadDraining
    | LoadStopped
    | LoadEmpty
    | Cancel
    | Drain
    | Dispose(work: Disposal)
    | Finished

  datatype Frame = PeerRequest | Response(id: nat)

  /** Where the receiving goroutine goes after it accepted the stream. */
  datatype Resume = ToReceive | ToHandle(frame: Frame)

  datatype Receiver =
    | AwaitHeader
    | StoreAccepted(next: Resume)
    | StoreHandoff(next: Resume)
    | CloseVerdict(next: Resume)
    | Receive
    | LoadAccepted(frame: Frame)
    | Handle(frame: Frame)
    | Deliver(req: Request)
    | DeliverStreaming(req: Request)
    | StartCheck
    | SwapHandoff(err: Err)
    | SetRefusal(err: Err)
    | CloseRefused(err: Err)
    | EndSession(err: Err)
    | DrainCalls(err: Err)
    | DisposeCalls(work: Disposal)
    | ReceiverDone

  datatype Watcher = Watch | WatchCalls | CloseDrain | WatcherCheck | WatcherDone

  /**
   * One session. The last six fields are history: the error other than `io.EOF` with which a send
   * failed before receiving ended, the calls that this failure drained from the table, the calls
   * ever put in the table, the calls taken by a response, and what the end of the session decided
   * for each pending call.
   */
  datatype Session = Session(
    done: bool,
    table: Table,
    draining: bool,
    drainClosed: bool,
    sendStopped: bool,
    accepted: bool,
    handoff: Handoff,
    verdicts: nat, // how often `verdict` was closed
    refusal: Option<Err>,
    receiver: Receiver,
    watcher: Watcher,
    checks: seq<Check>,
    broke: Option<Err>,
    broken: set<Request>,
    added: set<Request>,
    taken: set<Request>,
    requeued: set<Request>,
    failed: map<Request, Err>)

  const NEW_SESSION := Session(false, EMPTY, false, false, false, false, Fresh, 0, None,
    AwaitHeader, Watch, [], None, {}, {}, {}, {}, map[])

  /** The run loop, and inside it the send loop of session `k`. */
  datatype RunPc =
    | Await
    | FailRefused(req: Request, err: Err)
    | CheckContext(hand: Option<Request>)
    | FailHand(req: Request, err: Err, exit: bool)
    | Open(hand: Option<Request>)
    | Select(k: nat)
    | CheckEnded(k: nat, req: Request)
    | CheckDraining(k: nat, req: Request)
    | CheckCall(k: nat, req: Request)
    | FailEnded(k: nat, req: Request)
    | Add(k: nat, req: Request)
    | Send(k: nat, req: Request)
    | Confirm(k: nat, req: Request)
    | SendErr(k: nat, req: Request, err: Err)
    | CancelSend(k: nat, req: Request, err: Err)
    | BreakCancel(k: nat, req: Request, err: Err)
    | BreakDrain(k: nat, req: Request, err: Err)
    | BreakDispose(k: nat, req: Request, err: Err, work: Disposal)
    | AfterSendErr(k: nat, req: Request, err: Err, receiveDecides: bool)
    | FailOneway(k: nat, req: Request, err: Err)
    | StopSending(k: nat, hand: Option<Request>)
    | Outcome(k: nat, hand: Option<Request>)
    | AwaitVerdict(k: nat, hand: Option<Request>)
    | ExitLock
    | ExitDrain
    | ExitFail(req: Request)
    | Exited

  datatype ClosePc =
    | NotClosed
    | CloseLock
    | CloseDrainQueue
    | CloseFail(req: Request)
    | CloseWait
    | CloseReturned

  datatype State = State(
    capacity: nat,
    eager: bool,
    ctxEnded: bool,       // the channel's own context
    ended: set<nat>,      // the requests whose contexts ended
    queue: seq<Request>,
    queueClosed: bool,
    pushing: map<Request, PushStage>,
    run: RunPc,
    backoff: Option<Err>, // the latest refusal, until the server accepts a stream
    close: ClosePc,
    sessions: seq<Session>,
    issued: set<Request>,        // every request ever passed to Enqueue
    settled: set<Request>,       // the requests the channel is done with
    answers: multiset<Request>)  // one element per response delivered

  predicate Init(s: State) {
    && !s.ctxEnded && !s.queueClosed
    && s.ended == {} && s.queue == [] && s.pushing == map[]
    && s.run == CheckContext(None) && s.backoff == None && s.close == NotClosed
    && s.sessions == [] && s.issued == {} && s.settled == {} && s.answers == multiset{}
  }

  function CurrentHolds(c: Current): set<Request> {
    if c.Idle? then {} else {c.req}
  }

  function WorkHolds(d: Disposal): set<Request> {
    d.todo + CurrentHolds(d.current)
  }

  function Hand(hand: Option<Request>): set<Request> {
    if hand.Some? then {hand.value} else {}
  }

  /** The request a send in progress owns: a two-way request is in the table already. */
  function InSend(req: Request): set<Request> {
    if req.WantServerResponse() then {} else {req}
  }

  function RunHolds(pc: RunPc): set<Request> {
    match pc
    case FailRefused(r, _) => {r}
    case CheckContext(h) => Hand(h)
    case FailHand(r, _, _) => {r}
    case Open(h) => Hand(h)
    case CheckEnded(_, r) => {r}
    case CheckDraining(_, r) => {r}
    case CheckCall(_, r) => {r}
    case FailEnded(_, r) => {r}
    case Add(_, r) => {r}
    case Send(_, r) => InSend(r)
    case Confirm(_, r) => {r}
    case SendErr(_, r, _) => InSend(r)
    case CancelSend(_, r, _) => InSend(r)
    case BreakCancel(_, r, _) => InSend(r)
    case BreakDrain(_, r, _) => InSend(r)
    case BreakDispose(_, r, _, d) => InSend(r) + WorkHolds(d)
    case AfterSendErr(_, r, _, _) => InSend(r)
    case FailOneway(_, r, _) => {r}
    case StopSending(_, h) => Hand(h)
    case Outcome(_, h) => Hand(h)
    case AwaitVerdict(_, h) => Hand(h)
    case ExitFail(r) => {r}
    case _ => {}
  }

  function ReceiverHolds(pc: Receiver): set<Request> {
    match pc
    case Deliver(r) => {r}
    case DisposeCalls(d) => WorkHolds(d)
    case _ => {}
  }

  function CheckHolds(c: Check): set<Request> {
    if c.Dispose? then WorkHolds(c.work) else {}
  }

  function CloseHolds(pc: ClosePc): set<Request> {
    if pc.CloseFail? then {pc.req} else {}
  }

  /** The places a request can be in. */
  datatype Place =
    | InQueue
    | InPush
    | InRun
    | InClose
    | InTable(k: nat)
    | InReceiver(k: nat)
    | InCheck(k: nat, i: nat)
    | Settled

  predicate At(s: State, p: Place, r: Request) {
    match p
    case InQueue => r in s.queue
    case InPush => r in s.pushing
    case InRun => r in RunHolds(s.run)
    case InClose => r in CloseHolds(s.close)
    case InTable(k) => k < |s.sessions| && Holds(s.sessions[k].table, r)
    case InReceiver(k) => k < |s.sessions| && r in ReceiverHolds(s.sessions[k].receiver)
    case InCheck(k, i) =>
      k < |s.sessions| && i < |s.sessions[k].checks| && r in CheckHolds(s.sessions[k].checks[i])
    case Settled => r in s.settled
  }

  predicate IsRefusal(err: Err) {
    err.Refusal?
  }

  predicate HasReadLock(c: Current) {
    c.Rejected?
  }

  /** Nobody holds the read lock of the send queue, so it can be closed. */
  predicate NoReaders(s: State) {
    && (forall r <- s.pushing :: s.pushing[r].Begin?)
    && !(s.run.BreakDispose? && HasReadLock(s.run.work.current))
    && (forall k | 0 <= k < |s.sessions| ::
          !(s.sessions[k].receiver.DisposeCalls? && HasReadLock(s.sessions[k].receiver.work.current)))
    && (forall k, i | 0 <= k < |s.sessions| && 0 <= i < |s.sessions[k].checks| ::
          !(s.sessions[k].checks[i].Dispose? && HasReadLock(s.sessions[k].checks[i].work.current)))
  }
}
