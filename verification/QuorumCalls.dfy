/**
 * Quorum calls end to end (internal/impl/call_context.go): the fan-out asks every node once, a
 * stream channel answers a request at most once, so each node gives at most one response.
 */
module QuorumCalls {
  import opened Requests
  import opened Quorums
  import opened QuorumIntersection
  import opened FanOut
  import State = ChannelState
  import Steps = ChannelSteps
  import ChannelTheorems

  // ---- responses come from channels ----

  /** Where the responses to one ask come from: the call itself, or a run of the node's channel. */
  datatype Origin =
    | Reported
    | InProcess(replied: bool) // a local node, whose handler replies to a unary call at most once
    | Enqueued(states: seq<State.State>, actions: seq<Steps.Action>, at: nat, request: Request)

  /** The origin is that of the ask: an error if nothing was sent, otherwise a unary call with its ID. */
  predicate Genuine(a: Asked, o: Origin) {
    match o
    case Reported => a.msgId.None?
    case InProcess(_) => a.msgId.Some?
    case Enqueued(states, actions, at, r) =>
      && a.msgId == Some(r.id) && !r.streaming && r.WantServerResponse()
      && Steps.IsRun(states, actions) && at < |states|
  }

  /** How many responses the origin has given so far. */
  function Given(a: Asked, o: Origin): nat
    requires Genuine(a, o)
  {
    match o
    case Reported => 1
    case InProcess(replied) => if replied then 1 else 0
    case Enqueued(states, _, at, request) => states[at].answers[request]
  }

  /** How many responses the first n asks have given for a node. */
  function GivenFor(asked: seq<Asked>, origins: seq<Origin>, n: nat, id: ID): nat
    requires n <= |asked| == |origins| && forall i :: 0 <= i < |asked| ==> Genuine(asked[i], origins[i])
  {
    if n == 0 then 0 else
      GivenFor(asked, origins, n - 1, id)
      + (if asked[n - 1].node == id then Given(asked[n - 1], origins[n - 1]) else 0)
  }

  function CountFrom<T>(rs: seq<Response<T>>, id: ID): nat {
    if rs == [] then 0 else CountFrom(rs[..|rs| - 1], id) + (if rs[|rs| - 1].node == id then 1 else 0)
  }

  /** Every response that arrived was given by the origin of some ask of its node. */
  ghost predicate Arrived<T>(asked: seq<Asked>, origins: seq<Origin>, rs: seq<Response<T>>) {
    && |asked| == |origins| && (forall i :: 0 <= i < |asked| ==> Genuine(asked[i], origins[i]))
    && forall id: ID :: CountFrom(rs, id) <= GivenFor(asked, origins, |asked|, id)
  }

  lemma {:induction false} CountOfTwo<T>(rs: seq<Response<T>>, i: nat, j: nat)
    requires i < j < |rs| && rs[i].node == rs[j].node
    ensures CountFrom(rs, rs[i].node) >= 2
  {
    var rest := rs[..|rs| - 1];
    if j < |rs| - 1 {
      assert rest[i] == rs[i] && rest[j] == rs[j];
      CountOfTwo(rest, i, j);
    } else {
      assert rest[i] == rs[i];
      CountOfOne(rest, i);
    }
  }

  lemma {:induction false} CountOfOne<T>(rs: seq<Response<T>>, i: nat)
    requires i < |rs|
    ensures CountFrom(rs, rs[i].node) >= 1
  {
    if i < |rs| - 1 {
      assert rs[..|rs| - 1][i] == rs[i];
      CountOfOne(rs[..|rs| - 1], i);
    }
  }

  /** A stream channel answers a unary request at most once. */
  lemma GivenOnce(a: Asked, o: Origin)
    requires Genuine(a, o)
    ensures Given(a, o) <= 1
  {
    if o.Enqueued? {
      ChannelTheorems.AnsweredAtMostOnce(o.states, o.actions, o.at, o.request);
    }
  }

  /** Asks of different nodes give at most one response per node, and none for nodes not asked. */
  lemma {:induction false} GivenForOnce(asked: seq<Asked>, origins: seq<Origin>, n: nat, id: ID)
    requires n <= |asked| == |origins| && forall i :: 0 <= i < |asked| ==> Genuine(asked[i], origins[i])
    requires Distinct(NodesAsked(asked))
    ensures GivenFor(asked, origins, n, id) <= 1
    ensures (forall i :: 0 <= i < n ==> asked[i].node != id) ==> GivenFor(asked, origins, n, id) == 0
  {
    if n > 0 {
      GivenForOnce(asked, origins, n - 1, id);
      GivenOnce(asked[n - 1], origins[n - 1]);
      forall i | 0 <= i < n - 1
        ensures asked[i].node != asked[n - 1].node
      {
        assert NodesAsked(asked)[i] != NodesAsked(asked)[n - 1];
      }
    }
  }

  /**
   * Each node gives at most one response to a non-streaming call, and only configured nodes do, so
   * a response channel with room for one response per node never blocks a sender.
   */
  lemma OneResponsePerNode<T>(cfg: seq<Node>, asked: seq<Asked>, origins: seq<Origin>, rs: seq<Response<T>>)
    requires AsksEachOnce(cfg, asked) && Arrived(asked, origins, rs)
    ensures DistinctNodes(rs) && NodesOf(rs) <= SetOf(Ids(cfg)) && |rs| <= |cfg|
  {
    forall i, j | 0 <= i < j < |rs|
      ensures rs[i].node != rs[j].node
    {
      if rs[i].node == rs[j].node {
        CountOfTwo(rs, i, j);
        GivenForOnce(asked, origins, |asked|, rs[i].node);
      }
    }
    forall i | 0 <= i < |rs|
      ensures rs[i].node in SetOf(Ids(cfg))
    {
      CountOfOne(rs, i);
      GivenForOnce(asked, origins, |asked|, rs[i].node);
      var k :| 0 <= k < |asked| && asked[k].node == rs[i].node;
      assert NodesAsked(asked)[k] in SetOf(NodesAsked(asked));
    }
    NodesCount(rs);
    SetOfSize(Ids(cfg));
    SubsetSize(NodesOf(rs), SetOf(Ids(cfg)));
  }

  /** Two successful unary majority calls on one configuration share a node that replied to both. */
  lemma SuccessfulMajoritiesShareANode<T, U>(cfg: seq<Node>,
                                             asked: seq<Asked>, origins: seq<Origin>, rs: seq<Response<T>>,
                                             asked': seq<Asked>, origins': seq<Origin>, ts: seq<Response<U>>)
    returns (node: ID)
    requires AsksEachOnce(cfg, asked) && Arrived(asked, origins, rs) && 2 * |Successes(rs)| > |cfg|
    requires AsksEachOnce(cfg, asked') && Arrived(asked', origins', ts) && 2 * |Successes(ts)| > |cfg|
    ensures node in SetOf(Ids(cfg)) && Replied(rs, node) && Replied(ts, node)
  {
    OneResponsePerNode(cfg, asked, origins, rs);
    OneResponsePerNode(cfg, asked', origins', ts);
    node := MajoritiesMeet(Ids(cfg), rs, ts);
    OnlyReplies(rs, SetOf(Ids(cfg)), node);
  }
}
