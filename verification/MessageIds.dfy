/**
 * One bidirectional stream between the endpoint that dialed it and the one that accepted it.
 * Frames carry only a 64-bit ID; its high bit tells which side's ID space it is from. Each side
 * decides from the ID alone whether a frame is a request of its peer or a reply to its own call.
 */
module MessageIds {

  /** An unsigned 64-bit message ID. */
  type Id = n: nat | n < 0x1_0000_0000_0000_0000

  const SERVER_BIT: Id := 0x8000_0000_0000_0000

  /** Sets the high bit. */
  function ServerSequenceNumber(n: Id): Id {
    if n >= SERVER_BIT then n else n + SERVER_BIT
  }

  /** Tests the high bit. */
  predicate IsServerSequenceNumber(n: Id) {
    n >= SERVER_BIT
  }

  /** Comparing with the high bit is what the source's mask test computes. */
  lemma MaskTest(n: bv64)
    ensures n & 0x8000_0000_0000_0000 != 0 <==> n >= 0x8000_0000_0000_0000
  {
  }

  /** Adding the high bit is what the source's bitwise or computes on a counter below 2^63. */
  lemma MaskSet(n: bv64)
    requires n < 0x8000_0000_0000_0000
    ensures n | 0x8000_0000_0000_0000 == n + 0x8000_0000_0000_0000
  {
  }

  datatype Side = Dialer | Acceptor

  function Other(side: Side): Side {
    if side.Dialer? then Acceptor else Dialer
  }

  /** Tells the calls of a side apart; the peer never sees it. */
  type Call = nat

  /** What the sender meant; the receiver does not see it. */
  datatype Meaning = Request(call: Call) | Reply(call: Call) | AcceptFrame

  datatype Frame = Frame(id: Id, meaning: Meaning)

  /** `session.handle`: the peer's requests carry server IDs exactly on the side that dialed. */
  predicate TakenAsRequest(side: Side, f: Frame) {
    IsServerSequenceNumber(f.id) <==> side.Dialer?
  }

  /** The n-th ID of a side's counter. */
  function IdOf(side: Side, n: Id): Id {
    if side.Dialer? then n else ServerSequenceNumber(n)
  }

  /** A reply that was matched: the pending call it was taken for, and the call it answers. */
  datatype Match = Match(pending: Call, answers: Call)

  datatype Endpoint = Endpoint(
    earlier: map<Id, Call>,   // the requests this side sent on earlier streams
    issued: map<Id, Call>,    // the requests it sent on this stream
    pending: map<Id, Call>,   // its calls awaiting replies on this stream
    serving: map<Id, Call>,   // the requests of the peer that it is serving
    incoming: seq<Frame>,     // the frames on their way to this side
    answered: seq<Match>)     // the replies it matched to a call

  datatype State = State(dialer: Endpoint, acceptor: Endpoint) {
    function At(side: Side): Endpoint {
      if side.Dialer? then dialer else acceptor
    }

    function With(side: Side, e: Endpoint): State {
      if side.Dialer? then this.(dialer := e) else this.(acceptor := e)
    }
  }

  /** A new stream; what was sent on earlier ones carries IDs of the side's own space. */
  predicate Init(s: State) {
    forall side: Side ::
      s.At(side) == Endpoint(s.At(side).earlier, map[], map[], map[], [], []) && OwnSpace(side, s.At(side).earlier)
  }

  datatype Action =
    | SendRequest(side: Side, n: Id, call: Call, twoWay: bool)
    | SendReply(side: Side, id: Id)
    | SendLateReply(side: Side, id: Id)            // to a request of an earlier stream
    | SendAccept
    | Forget(side: Side, id: Id)                   // a call expires, or its request is done
    | Receive(side: Side, streaming: bool)

  function Post(s: State, side: Side, f: Frame): State {
    s.With(side, s.At(side).(incoming := s.At(side).incoming + [f]))
  }

  /**
   * Numbers come from a counter that concurrent callers share, so they need not ascend on one
   * stream; a call that returned to the queue is resent on this stream under its old number.
   */
  predicate SendRequestStep(s: State, side: Side, n: Id, call: Call, twoWay: bool, s': State) {
    var e, id := s.At(side), IdOf(side, n);
    && 0 < n < SERVER_BIT && id !in e.issued && (id in e.earlier ==> e.earlier[id] == call)
    && s' == Post(s.With(side, e.(issued := e.issued[id := call],
                                  pending := if twoWay then e.pending[id := call] else e.pending)),
                  Other(side), Frame(id, Request(call)))
  }

  /** A reply copies the ID of the request it answers; a handler may reply any number of times. */
  predicate SendReplyStep(s: State, side: Side, id: Id, s': State) {
    id in s.At(side).serving && s' == Post(s, Other(side), Frame(id, Reply(s.At(side).serving[id])))
  }

  /** Replies pass through the channel's queue, so one may leave on a later stream than its request. */
  predicate SendLateReplyStep(s: State, side: Side, id: Id, s': State) {
    var peer := s.At(Other(side));
    id in peer.earlier && s' == Post(s, Other(side), Frame(id, Reply(peer.earlier[id])))
  }

  predicate ForgetStep(s: State, side: Side, id: Id, s': State) {
    var e := s.At(side);
    s' == s.With(side, e.(pending := e.pending - {id}, serving := e.serving - {id}))
  }

  predicate ReceiveStep(s: State, side: Side, streaming: bool, s': State) {
    var e := s.At(side);
    && e.incoming != []
    && var f, rest := e.incoming[0], e.(incoming := e.incoming[1..]);
    if TakenAsRequest(side, f) then s' == s.With(side, rest.(serving := e.serving[f.id := Meant(f)]))
    else if f.id in e.pending then
      s' == s.With(side, rest.(answered := e.answered + [Match(e.pending[f.id], Meant(f))],
                               pending := if streaming then e.pending else e.pending - {f.id}))
    else s' == s.With(side, rest)
  }

  /** The call a frame was sent for; none for the acceptance frame. */
  function Meant(f: Frame): Call {
    if f.meaning.AcceptFrame? then 0 else f.meaning.call
  }

  predicate Step(s: State, a: Action, s': State) {
    match a
    case SendRequest(side, n, call, twoWay) => SendRequestStep(s, side, n, call, twoWay, s')
    case SendReply(side, id) => SendReplyStep(s, side, id, s')
    case SendLateReply(side, id) => SendLateReplyStep(s, side, id, s')
    case SendAccept => s' == Post(s, Dialer, Frame(0, AcceptFrame))
    case Forget(side, id) => ForgetStep(s, side, id, s')
    case Receive(side, streaming) => ReceiveStep(s, side, streaming, s')
  }

  // ---- the invariant ----

  /** Drawn from the side's own counter, which starts at 1. */
  predicate OwnSpace(side: Side, ids: map<Id, Call>) {
    forall id <- ids :: (IsServerSequenceNumber(id) <==> side.Acceptor?) && id != 0
  }

  /** The call a side sent under an ID, on this stream or an earlier one. */
  predicate Names(e: Endpoint, id: Id, call: Call) {
    || (id in e.issued && e.issued[id] == call)
    || (id in e.earlier && e.earlier[id] == call)
  }

  /** The IDs of a side are in its own space, and an ID means one call. */
  predicate OwnIds(side: Side, e: Endpoint) {
    && OwnSpace(side, e.issued) && OwnSpace(side, e.earlier)
    && (forall id <- e.issued :: id in e.earlier ==> e.earlier[id] == e.issued[id])
    && (forall id <- e.pending :: id in e.issued && e.issued[id] == e.pending[id])
    && (forall m <- e.answered :: m.pending == m.answers)
  }

  /** A frame on its way to side means what side will take it for. */
  predicate FrameOk(s: State, side: Side, f: Frame) {
    match f.meaning
    case Request(call) => Names(s.At(Other(side)), f.id, call) && f.id in s.At(Other(side)).issued
    case Reply(call) => Names(s.At(side), f.id, call)
    case AcceptFrame => f.id == 0 && side.Dialer?
  }

  predicate SideOk(s: State, side: Side) {
    && OwnIds(side, s.At(side))
    && (forall id <- s.At(side).serving :: Names(s.At(Other(side)), id, s.At(side).serving[id]))
    && (forall f <- s.At(side).incoming :: FrameOk(s, side, f))
  }

  predicate Inv(s: State) {
    SideOk(s, Dialer) && SideOk(s, Acceptor)
  }

  lemma PostKeeps(s: State, side: Side, f: Frame)
    requires Inv(s) && FrameOk(s, side, f)
    ensures Inv(Post(s, side, f))
  {
    var s' := Post(s, side, f);
    forall d: Side, g | g in s'.At(d).incoming
      ensures FrameOk(s', d, g)
    {
      assert FrameOk(s, d, g);
    }
  }

  /** A side that only forgets calls, and keeps what it sent, leaves the invariant alone. */
  lemma SentKeeps(s: State, side: Side, e: Endpoint)
    requires Inv(s) && OwnIds(side, e)
    requires e.incoming == s.At(side).incoming && e.serving == s.At(side).serving && e.earlier == s.At(side).earlier
    requires forall id <- s.At(side).issued :: id in e.issued && e.issued[id] == s.At(side).issued[id]
    ensures Inv(s.With(side, e))
  {
    var s' := s.With(side, e);
    forall d: Side, g | g in s'.At(d).incoming
      ensures FrameOk(s', d, g)
    {
      assert FrameOk(s, d, g);
    }
  }

  lemma SendRequestKeeps(s: State, side: Side, n: Id, call: Call, twoWay: bool, s': State)
    requires Inv(s) && SendRequestStep(s, side, n, call, twoWay, s')
    ensures Inv(s')
  {
    var e, id := s.At(side), IdOf(side, n);
    var e' := e.(issued := e.issued[id := call], pending := if twoWay then e.pending[id := call] else e.pending);
    SentKeeps(s, side, e');
    PostKeeps(s.With(side, e'), Other(side), Frame(id, Request(call)));
  }

  /** Where the invariant holds, the ID alone gives away what a frame means. */
  lemma Classified(s: State, side: Side, f: Frame)
    requires Inv(s) && FrameOk(s, side, f)
    ensures TakenAsRequest(side, f) <==> f.meaning.Request?
    ensures f.meaning.AcceptFrame? ==> f.id !in s.At(side).pending
    ensures f.meaning.Reply? && f.id in s.At(side).pending ==> s.At(side).pending[f.id] == f.meaning.call
  {
  }

  /** Taking the first frame off the wire, and serving at most the request that it is. */
  lemma TakeKeeps(s: State, side: Side, serving: map<Id, Call>)
    requires Inv(s) && s.At(side).incoming != []
    requires forall id <- serving :: Names(s.At(Other(side)), id, serving[id])
    ensures Inv(s.With(side, s.At(side).(incoming := s.At(side).incoming[1..], serving := serving)))
  {
    var e := s.At(side).(incoming := s.At(side).incoming[1..], serving := serving);
    var s' := s.With(side, e);
    forall d: Side, g | g in s'.At(d).incoming
      ensures FrameOk(s', d, g)
    {
      assert g in s.At(d).incoming;
      assert FrameOk(s, d, g);
    }
  }

  lemma ReceiveKeeps(s: State, side: Side, streaming: bool, s': State)
    requires Inv(s) && ReceiveStep(s, side, streaming, s')
    ensures Inv(s')
  {
    var e := s.At(side);
    var f := e.incoming[0];
    assert FrameOk(s, side, f);
    Classified(s, side, f);
    if TakenAsRequest(side, f) {
      TakeKeeps(s, side, e.serving[f.id := Meant(f)]);
    } else {
      TakeKeeps(s, side, e.serving);
      var rest := e.(incoming := e.incoming[1..]);
      if f.id in e.pending {
        SentKeeps(s.With(side, rest), side,
                  rest.(answered := e.answered + [Match(e.pending[f.id], Meant(f))],
                        pending := if streaming then e.pending else e.pending - {f.id}));
      }
    }
  }

  lemma ForgetKeeps(s: State, side: Side, id: Id, s': State)
    requires Inv(s) && ForgetStep(s, side, id, s')
    ensures Inv(s')
  {
    var e := s.At(side);
    SentKeeps(s, side, e.(pending := e.pending - {id}));
    forall d: Side, g | g in s'.At(d).incoming
      ensures FrameOk(s', d, g)
    {
      assert FrameOk(s, d, g);
    }
  }

  lemma StepKeeps(s: State, a: Action, s': State)
    requires Inv(s) && Step(s, a, s')
    ensures Inv(s')
  {
    match a
    case SendRequest(side, n, call, twoWay) => SendRequestKeeps(s, side, n, call, twoWay, s');
    case SendReply(side, id) => PostKeeps(s, Other(side), Frame(id, Reply(s.At(side).serving[id])));
    case SendLateReply(side, id) => PostKeeps(s, Other(side), Frame(id, Reply(s.At(Other(side)).earlier[id])));
    case SendAccept => PostKeeps(s, Dialer, Frame(0, AcceptFrame));
    case Forget(side, id) => ForgetKeeps(s, side, id, s');
    case Receive(side, streaming) => ReceiveKeeps(s, side, streaming, s');
  }

  predicate IsRun(states: seq<State>, actions: seq<Action>) {
    && |states| == |actions| + 1 && Init(states[0])
    && (forall i {:trigger actions[i]} | 0 <= i < |actions| :: Step(states[i], actions[i], states[i + 1]))
  }

  lemma {:induction false} RunInv(states: seq<State>, actions: seq<Action>, n: nat)
    requires IsRun(states, actions) && n < |states|
    ensures Inv(states[n])
  {
    if n == 0 {
      assert states[0].At(Dialer).incoming == [] && states[0].At(Acceptor).incoming == [];
    } else {
      RunInv(states, actions, n - 1);
      StepKeeps(states[n - 1], actions[n - 1], states[n]);
    }
  }

  /**
   * In every run with counters below 2^63, whatever order IDs come in and whatever streams went
   * before: each frame on the wire is taken as a request exactly by the side it is a request for,
   * and would be taken for the opposite by the other; a reply, late or not, is for a call of its
   * receiver, and if it matches a pending call then it matches the call it answers; and the
   * acceptance frame answers no call.
   */
  lemma FramesAreTakenAsMeant(states: seq<State>, actions: seq<Action>, n: nat, side: Side, f: Frame)
    requires IsRun(states, actions) && n < |states| && f in states[n].At(side).incoming
    ensures TakenAsRequest(side, f) <==> f.meaning.Request?
    ensures TakenAsRequest(side, f) <==> !TakenAsRequest(Other(side), f)
    ensures TakenAsRequest(side, f) ==> f.id in states[n].At(Other(side)).issued && f.id !in states[n].At(side).pending
    ensures f.meaning.Reply? ==> Names(states[n].At(side), f.id, f.meaning.call)
    ensures f.meaning.Reply? && f.id in states[n].At(side).pending ==>
              states[n].At(side).pending[f.id] == f.meaning.call
    ensures f.meaning.AcceptFrame? ==> f.id !in states[n].At(side).pending
  {
    RunInv(states, actions, n);
    Classified(states[n], side, f);
  }

  /** In every run, each reply that was matched answers the call it was matched to. */
  lemma RepliesReachTheirCalls(states: seq<State>, actions: seq<Action>, n: nat, side: Side, i: nat)
    requires IsRun(states, actions) && n < |states| && i < |states[n].At(side).answered|
    ensures states[n].At(side).answered[i].pending == states[n].At(side).answered[i].answers
  {
    RunInv(states, actions, n);
    assert states[n].At(side).answered[i] in states[n].At(side).answered;
  }
}
