/** Which nodes the terminal methods count, and that calls over more than half of them meet. */
module QuorumIntersection {
  import opened Requests
  import opened Quorums

  // ---- the first reply of each node ----

  /** rs[i] is the first reply of its node among rs. */
  predicate FirstOfNode<T>(rs: seq<Response<T>>, i: nat)
    requires i < |rs|
  {
    && rs[i].outcome.Reply?
    && forall j :: 0 <= j < i ==> rs[j].node == rs[i].node ==> !rs[j].outcome.Reply?
  }

  predicate Replied<T>(rs: seq<Response<T>>, node: ID) {
    exists i :: 0 <= i < |rs| && rs[i].node == node && rs[i].outcome.Reply?
  }

  /** The responses before n that are the first reply of their node, in arrival order. */
  function FirstReplies<T>(rs: seq<Response<T>>, n: nat): seq<Response<T>>
    requires n <= |rs|
  {
    if n == 0 then [] else FirstReplies(rs, n - 1) + (if FirstOfNode(rs, n - 1) then [rs[n - 1]] else [])
  }

  function RepliedBefore<T>(rs: seq<Response<T>>, n: nat): set<ID>
    requires n <= |rs|
  {
    set i | 0 <= i < n && rs[i].outcome.Reply? :: rs[i].node
  }

  lemma RepliedStep<T>(rs: seq<Response<T>>, m: nat)
    requires m < |rs|
    ensures FirstOfNode(rs, m) <==> rs[m].outcome.Reply? && rs[m].node !in RepliedBefore(rs, m)
    ensures RepliedBefore(rs, m + 1) == RepliedBefore(rs, m) + (if FirstOfNode(rs, m) then {rs[m].node} else {})
  {
    assert RepliedBefore(rs, m + 1) == RepliedBefore(rs, m) + (if rs[m].outcome.Reply? then {rs[m].node} else {});
  }

  lemma {:induction false} FirstsSplit<T>(rs: seq<Response<T>>, n: nat)
    requires n <= |rs|
    ensures Firsts(rs) == FirstReplies(rs, n) + FirstsFrom(RepliedBefore(rs, n), rs[n..])
  {
    if n == 0 {
      assert rs[0..] == rs;
      assert RepliedBefore(rs, 0) == {};
    } else {
      var m := n - 1;
      FirstsSplit(rs, m);
      assert rs[m..][1..] == rs[n..];
      RepliedStep(rs, m);
      var rest := FirstsFrom(RepliedBefore(rs, n), rs[n..]);
      if FirstOfNode(rs, m) {
        assert FirstReplies(rs, m) + ([rs[m]] + rest) == FirstReplies(rs, n) + rest;
      } else {
        assert FirstReplies(rs, n) == FirstReplies(rs, m);
        assert RepliedBefore(rs, n) == RepliedBefore(rs, m);
      }
    }
  }

  /** Reduce and Matching see exactly each replying node's first reply, in arrival order. */
  lemma FirstsAreFirstReplies<T>(rs: seq<Response<T>>)
    ensures Firsts(rs) == FirstReplies(rs, |rs|)
  {
    FirstsSplit(rs, |rs|);
    assert rs[|rs|..] == [];
  }

  lemma {:induction false} FirstRepliesDistinct<T>(rs: seq<Response<T>>, n: nat)
    requires n <= |rs|
    ensures DistinctNodes(FirstReplies(rs, n)) && NodesOf(FirstReplies(rs, n)) == RepliedBefore(rs, n)
  {
    if n == 0 {
      assert NodesOf(FirstReplies(rs, 0)) == {};
    } else {
      var m := n - 1;
      FirstRepliesDistinct(rs, m);
      var xs := FirstReplies(rs, m);
      RepliedStep(rs, m);
      NodesAppend(xs, rs[m]);
      assert xs + [] == xs;
    }
  }

  lemma NodesAppend<T>(xs: seq<Response<T>>, x: Response<T>)
    ensures NodesOf(xs + [x]) == NodesOf(xs) + {x.node}
    ensures DistinctNodes(xs) && x.node !in NodesOf(xs) ==> DistinctNodes(xs + [x])
  {
    var all := xs + [x];
    assert all[|xs|] == x;
    assert forall i :: 0 <= i < |xs| ==> all[i] == xs[i];
    assert forall i :: 0 <= i < |xs| ==> xs[i].node in NodesOf(xs);
  }

  // ---- counting distinct nodes ----

  lemma {:induction false} NodesCount<T>(xs: seq<Response<T>>)
    requires DistinctNodes(xs)
    ensures |NodesOf(xs)| == |xs|
  {
    if xs != [] {
      var rest, x := xs[..|xs| - 1], xs[|xs| - 1];
      NodesCount(rest);
      NodesAppend(rest, x);
      assert rest + [x] == xs;
    }
  }

  lemma {:induction false} SetOfSize(ids: seq<ID>)
    ensures |SetOf(ids)| <= |ids|
  {
    if ids != [] {
      SetOfSize(ids[..|ids| - 1]);
      SetOfAppend(ids[..|ids| - 1], ids[|ids| - 1]);
      assert ids[..|ids| - 1] + [ids[|ids| - 1]] == ids;
    }
  }

  lemma {:induction false} SubsetSize(xs: set<ID>, ys: set<ID>)
    requires xs <= ys
    ensures |xs| <= |ys|
  {
    if xs != {} {
      var x :| x in xs;
      SubsetSize(xs - {x}, ys - {x});
    }
  }

  /** Two sets of more than half of the nodes share a node. */
  lemma Pigeonhole(cfg: seq<ID>, xs: set<ID>, ys: set<ID>) returns (node: ID)
    requires xs <= SetOf(cfg) && ys <= SetOf(cfg)
    requires 2 * |xs| > |cfg| && 2 * |ys| > |cfg|
    ensures node in xs && node in ys
  {
    SetOfSize(cfg);
    node := Overlap(SetOf(cfg), xs, ys);
  }

  // ---- majorities meet ----

  lemma {:induction false} SuccessesDistinct<T>(rs: seq<Response<T>>)
    requires DistinctNodes(rs)
    ensures DistinctNodes(Successes(rs))
    ensures forall id :: id in NodesOf(Successes(rs)) ==> Replied(rs, id)
  {
    if rs != [] {
      var rest := rs[1..];
      assert forall i :: 0 <= i < |rest| ==> rest[i] == rs[i + 1];
      SuccessesDistinct(rest);
      SuccessesReply(rest);
      RepliedRest(rs);
    }
  }

  lemma RepliedRest<T>(rs: seq<Response<T>>)
    requires rs != []
    ensures forall id :: Replied(rs[1..], id) ==> Replied(rs, id)
  {
    forall id | Replied(rs[1..], id)
      ensures Replied(rs, id)
    {
      var i :| 0 <= i < |rs[1..]| && rs[1..][i].node == id && rs[1..][i].outcome.Reply?;
      assert rs[i + 1] == rs[1..][i];
    }
  }

  lemma RepliedAreNodes<T>(rs: seq<Response<T>>, cfg: seq<ID>, ids: set<ID>)
    requires NodesOf(rs) <= SetOf(cfg) && forall id :: id in ids ==> Replied(rs, id)
    ensures ids <= SetOf(cfg)
  {
  }

  /** Two calls that each counted more than half of the nodes have a node that replied to both. */
  lemma MajoritiesMeet<T, U>(cfg: seq<ID>, rs: seq<Response<T>>, ts: seq<Response<U>>) returns (node: ID)
    requires DistinctNodes(rs) && NodesOf(rs) <= SetOf(cfg) && 2 * |Successes(rs)| > |cfg|
    requires DistinctNodes(ts) && NodesOf(ts) <= SetOf(cfg) && 2 * |Successes(ts)| > |cfg|
    ensures Replied(rs, node) && Replied(ts, node)
  {
    SuccessesDistinct(rs);
    SuccessesDistinct(ts);
    NodesCount(Successes(rs));
    NodesCount(Successes(ts));
    RepliedAreNodes(rs, cfg, NodesOf(Successes(rs)));
    RepliedAreNodes(ts, cfg, NodesOf(Successes(ts)));
    node := Pigeonhole(cfg, NodesOf(Successes(rs)), NodesOf(Successes(ts)));
  }

  // ---- when calls meet, exactly ----

  ghost predicate Meet<T, U>(rs: seq<Response<T>>, ts: seq<Response<U>>) {
    exists id: ID :: Replied(rs, id) && Replied(ts, id)
  }

  /** Responses of configured nodes on which Majority succeeds; a streaming node may reply often. */
  predicate MajorityOf<T>(cfg: seq<ID>, rs: seq<Response<T>>) {
    NodesOf(rs) <= SetOf(cfg) && 2 * |Successes(rs)| > |cfg|
  }

  /** n replies of one node. */
  function Copies<T>(node: ID, v: T, n: nat): seq<Response<T>> {
    if n == 0 then [] else [Response(node, Reply(v))] + Copies(node, v, n - 1)
  }

  lemma {:induction false} CopiesAre<T>(node: ID, v: T, n: nat)
    ensures |Successes(Copies(node, v, n))| == n
    ensures NodesOf(Copies(node, v, n)) <= {node}
  {
    if n > 0 {
      CopiesAre(node, v, n - 1);
      var xs := Copies(node, v, n);
      assert xs[1..] == Copies(node, v, n - 1);
      forall i | 0 <= i < |xs|
        ensures xs[i].node == node
      {
        assert i > 0 ==> xs[i].node in NodesOf(xs[1..]) by {
          if i > 0 {
            assert xs[1..][i - 1] == xs[i];
          }
        }
      }
    }
  }

  /** One reply of each node. */
  function OneEach<T>(ids: seq<ID>, v: T): (r: seq<Response<T>>)
    ensures |r| == |ids| && forall i :: 0 <= i < |ids| ==> r[i] == Response(ids[i], Reply(v))
  {
    seq(|ids|, i requires 0 <= i < |ids| => Response(ids[i], Reply(v)))
  }

  lemma {:induction false} OneEachSucceeds<T>(xs: seq<Response<T>>)
    requires AllReply(xs)
    ensures |Successes(xs)| == |xs|
  {
    if xs != [] {
      assert forall i :: 0 <= i < |xs[1..]| ==> xs[1..][i] == xs[i + 1];
      OneEachSucceeds(xs[1..]);
    }
  }

  lemma OnlyReplies<T>(rs: seq<Response<T>>, ids: set<ID>, id: ID)
    requires NodesOf(rs) <= ids && Replied(rs, id)
    ensures id in ids
  {
    var i :| 0 <= i < |rs| && rs[i].node == id && rs[i].outcome.Reply?;
    assert rs[i].node in NodesOf(rs);
  }

  /**
   * A streaming call meets every streaming majority of its configuration exactly if every node
   * replied to it: a node that did not can make up a majority on its own.
   */
  lemma MeetsEveryStreamingMajorityIff<T(!new), U(!new)>(cfg: seq<ID>, rs: seq<Response<T>>, v: U)
    requires cfg != [] && NodesOf(rs) <= SetOf(cfg)
    ensures (forall ts: seq<Response<U>> :: MajorityOf(cfg, ts) ==> Meet(rs, ts))
            <==> RepliedBefore(rs, |rs|) == SetOf(cfg)
  {
    RepliedInConfig(rs, cfg);
    if RepliedBefore(rs, |rs|) == SetOf(cfg) {
      forall ts: seq<Response<U>> | MajorityOf(cfg, ts)
        ensures Meet(rs, ts)
      {
        SuccessesReply(ts);
        var x := Successes(ts)[0];
        var i :| 0 <= i < |ts| && ts[i] == x;
        OnlyReplies(ts, SetOf(cfg), x.node);
        assert Replied(rs, x.node) && Replied(ts, x.node);
      }
    } else {
      var node :| node in SetOf(cfg) && node !in RepliedBefore(rs, |rs|);
      AloneIsMajority(cfg, node, v);
      NoReplyNoMeeting(rs, node, v, |cfg|);
    }
  }

  lemma AloneIsMajority<T>(cfg: seq<ID>, node: ID, v: T)
    requires node in SetOf(cfg)
    ensures MajorityOf(cfg, Copies(node, v, |cfg|))
  {
    CopiesAre(node, v, |cfg|);
  }

  lemma NoReplyNoMeeting<T, U>(rs: seq<Response<T>>, node: ID, v: U, n: nat)
    requires node !in RepliedBefore(rs, |rs|)
    ensures !Meet(rs, Copies(node, v, n))
  {
    CopiesAre(node, v, n);
    forall id | Replied(rs, id)
      ensures !Replied(Copies(node, v, n), id)
    {
      if Replied(Copies(node, v, n), id) {
        OnlyReplies(Copies(node, v, n), {node}, id);
      }
    }
  }

  /** Streaming majorities of a configuration of distinct nodes always meet exactly if it has at most one. */
  lemma StreamingMajoritiesMeetIff<T(!new)>(cfg: seq<ID>, v: T)
    requires Distinct(cfg)
    ensures (forall rs: seq<Response<T>>, ts: seq<Response<T>> ::
               MajorityOf(cfg, rs) && MajorityOf(cfg, ts) ==> Meet(rs, ts))
            <==> |cfg| <= 1
  {
    if |cfg| <= 1 {
      forall rs: seq<Response<T>>, ts: seq<Response<T>> | MajorityOf(cfg, rs) && MajorityOf(cfg, ts)
        ensures Meet(rs, ts)
      {
        SomeReply(cfg, rs);
        SomeReply(cfg, ts);
        assert Replied(rs, cfg[0]) && Replied(ts, cfg[0]);
      }
    } else {
      assert cfg[0] in SetOf(cfg) && cfg[1] in SetOf(cfg);
      AloneIsMajority(cfg, cfg[0], v);
      AloneIsMajority(cfg, cfg[1], v);
      CopiesAre(cfg[0], v, |cfg|);
      SetOfAppend([], cfg[0]);
      RepliedInConfig(Copies(cfg[0], v, |cfg|), [cfg[0]]);
      NoReplyNoMeeting(Copies(cfg[0], v, |cfg|), cfg[1], v, |cfg|);
    }
  }

  /** A majority of a configuration of one node has a reply of that node. */
  lemma SomeReply<T>(cfg: seq<ID>, rs: seq<Response<T>>)
    requires |cfg| <= 1 && MajorityOf(cfg, rs)
    ensures |cfg| == 1 && Replied(rs, cfg[0])
  {
    SuccessesReply(rs);
    var x := Successes(rs)[0];
    var i :| 0 <= i < |rs| && rs[i] == x;
    assert rs[i].node in NodesOf(rs);
  }

  // ---- majorities of distinct nodes ----

  /** The nodes of a configuration that are not in a set, in order. */
  function Except(cfg: seq<ID>, ids: set<ID>): seq<ID> {
    if cfg == [] then [] else
      Except(cfg[..|cfg| - 1], ids) + (if cfg[|cfg| - 1] in ids then [] else [cfg[|cfg| - 1]])
  }

  lemma {:induction false} ExceptIs(cfg: seq<ID>, ids: set<ID>)
    requires Distinct(cfg)
    ensures SetOf(Except(cfg, ids)) == SetOf(cfg) - ids && Distinct(Except(cfg, ids))
  {
    if cfg != [] {
      var rest, id := cfg[..|cfg| - 1], cfg[|cfg| - 1];
      ExceptIs(rest, ids);
      SetOfAppend(rest, id);
      assert rest + [id] == cfg;
      assert id !in SetOf(rest);
      var xs := Except(rest, ids);
      SetOfAppend(xs, id);
      assert forall i :: 0 <= i < |xs| ==> xs[i] in SetOf(xs);
      assert xs + [] == xs;
    }
  }

  lemma {:induction false} DistinctSize(ids: seq<ID>)
    requires Distinct(ids)
    ensures |SetOf(ids)| == |ids|
  {
    if ids != [] {
      var rest, id := ids[..|ids| - 1], ids[|ids| - 1];
      DistinctSize(rest);
      SetOfAppend(rest, id);
      assert rest + [id] == ids;
      assert id !in SetOf(rest);
    }
  }

  /**
   * A call, streaming or not, meets every majority of distinct nodes exactly if at least half of
   * the configuration's nodes replied to it.
   */
  lemma MeetsEveryMajorityIff<T(!new), U(!new)>(cfg: seq<ID>, rs: seq<Response<T>>, v: U)
    requires Distinct(cfg) && NodesOf(rs) <= SetOf(cfg)
    ensures (forall ts: seq<Response<U>> :: MajorityOf(cfg, ts) && DistinctNodes(ts) ==> Meet(rs, ts))
            <==> 2 * |RepliedBefore(rs, |rs|)| >= |cfg|
  {
    var replied := RepliedBefore(rs, |rs|);
    RepliedInConfig(rs, cfg);
    DistinctSize(cfg);
    if 2 * |replied| >= |cfg| {
      forall ts: seq<Response<U>> | MajorityOf(cfg, ts) && DistinctNodes(ts)
        ensures Meet(rs, ts)
      {
        SuccessesDistinct(ts);
        NodesCount(Successes(ts));
        RepliedAreNodes(ts, cfg, NodesOf(Successes(ts)));
        var node := Overlap(SetOf(cfg), replied, NodesOf(Successes(ts)));
        assert Replied(rs, node) && Replied(ts, node);
      }
    } else {
      ExceptIs(cfg, replied);
      var ids := Except(cfg, replied);
      DistinctSize(ids);
      assert |SetOf(cfg) - replied| == |SetOf(cfg)| - |replied|;
      RestIsMajority(cfg, ids, v);
      RestDoesNotMeet(rs, ids, v);
    }
  }

  lemma Overlap(all: set<ID>, xs: set<ID>, ys: set<ID>) returns (node: ID)
    requires xs <= all && ys <= all && |xs| + |ys| > |all|
    ensures node in xs && node in ys
  {
    SubsetSize(xs + ys, all);
    assert |xs + ys| + |xs * ys| == |xs| + |ys|;
    node :| node in xs * ys;
  }

  lemma RestIsMajority<T>(cfg: seq<ID>, ids: seq<ID>, v: T)
    requires Distinct(ids) && SetOf(ids) <= SetOf(cfg) && 2 * |ids| > |cfg|
    ensures MajorityOf(cfg, OneEach(ids, v)) && DistinctNodes(OneEach(ids, v))
  {
    OneEachSucceeds(OneEach(ids, v));
    OneEachNodes(ids, v);
  }

  lemma OneEachNodes<T>(ids: seq<ID>, v: T)
    ensures NodesOf(OneEach(ids, v)) <= SetOf(ids)
  {
  }

  lemma RestDoesNotMeet<T, U>(rs: seq<Response<T>>, ids: seq<ID>, v: U)
    requires SetOf(ids) !! RepliedBefore(rs, |rs|)
    ensures !Meet(rs, OneEach(ids, v))
  {
    OneEachNodes(ids, v);
    forall id | Replied(rs, id)
      ensures !Replied(OneEach(ids, v), id)
    {
      if Replied(OneEach(ids, v), id) {
        OnlyReplies(OneEach(ids, v), SetOf(ids), id);
      }
    }
  }

  lemma {:induction false} FoldCompletes<T, A>(add: (A, Response<T>) -> Reduced<A>, acc: A, xs: seq<Response<T>>,
                                               n: nat, errs: seq<NodeError>)
    requires Fold(add, acc, xs, n, errs).error.None?
    ensures |xs| >= n
    decreases n
  {
    if n > 0 && xs != [] {
      FoldCompletes(add, add(acc, xs[0]).acc, xs[1..], n - 1, errs);
    }
  }

  lemma FirstsNodes<T>(rs: seq<Response<T>>)
    ensures DistinctNodes(Firsts(rs)) && NodesOf(Firsts(rs)) == RepliedBefore(rs, |rs|)
  {
    FirstsAreFirstReplies(rs);
    FirstRepliesDistinct(rs, |rs|);
  }

  /** Reduce over more than half of the nodes: two that complete share a node, streaming or not. */
  lemma ReductionsMeet<T, U, A, B>(cfg: seq<ID>,
                                   rs: seq<Response<T>>, n: nat, x: A, add: (A, Response<T>) -> Reduced<A>,
                                   ts: seq<Response<U>>, m: nat, y: B, sum: (B, Response<U>) -> Reduced<B>)
    returns (node: ID)
    requires NodesOf(rs) <= SetOf(cfg) && NodesOf(ts) <= SetOf(cfg) && 2 * n > |cfg| && 2 * m > |cfg|
    requires Fold(add, x, Firsts(rs), n, Failures(rs)).error.None?
    requires Fold(sum, y, Firsts(ts), m, Failures(ts)).error.None?
    ensures Replied(rs, node) && Replied(ts, node)
  {
    FoldCompletes(add, x, Firsts(rs), n, Failures(rs));
    FoldCompletes(sum, y, Firsts(ts), m, Failures(ts));
    node := FirstsMeet(cfg, rs, ts);
  }

  lemma FirstsMeet<T, U>(cfg: seq<ID>, rs: seq<Response<T>>, ts: seq<Response<U>>) returns (node: ID)
    requires NodesOf(rs) <= SetOf(cfg) && NodesOf(ts) <= SetOf(cfg)
    requires 2 * |Firsts(rs)| > |cfg| && 2 * |Firsts(ts)| > |cfg|
    ensures Replied(rs, node) && Replied(ts, node)
  {
    FirstsNodes(rs);
    FirstsNodes(ts);
    NodesCount(Firsts(rs));
    NodesCount(Firsts(ts));
    RepliedInConfig(rs, cfg);
    RepliedInConfig(ts, cfg);
    node := Pigeonhole(cfg, NodesOf(Firsts(rs)), NodesOf(Firsts(ts)));
  }

  lemma RepliedInConfig<T>(rs: seq<Response<T>>, cfg: seq<ID>)
    requires NodesOf(rs) <= SetOf(cfg)
    ensures RepliedBefore(rs, |rs|) <= SetOf(cfg)
    ensures forall id :: id in RepliedBefore(rs, |rs|) ==> Replied(rs, id)
  {
    forall id | id in RepliedBefore(rs, |rs|)
      ensures id in SetOf(cfg) && Replied(rs, id)
    {
      var i :| 0 <= i < |rs| && rs[i].outcome.Reply? && rs[i].node == id;
      assert rs[i].node in NodesOf(rs);
    }
  }

  /** The n replies of an agreement come from n different nodes. */
  lemma {:induction false} WithKeyDistinct<T, K>(key: T -> K, k: K, xs: seq<Response<T>>)
    requires AllReply(xs) && DistinctNodes(xs)
    ensures DistinctNodes(WithKey(key, k, xs)) && NodesOf(WithKey(key, k, xs)) <= NodesOf(xs)
  {
    if xs != [] {
      var rest, x := xs[..|xs| - 1], xs[|xs| - 1];
      WithKeyDistinct(key, k, rest);
      assert xs == rest + [x];
      NodesAppend(rest, x);
      NodesAppend(WithKey(key, k, rest), x);
      LastIsNew(rest, x);
    }
  }

  lemma LastIsNew<T>(rest: seq<Response<T>>, x: Response<T>)
    requires DistinctNodes(rest + [x])
    ensures x.node !in NodesOf(rest)
  {
    forall i | 0 <= i < |rest|
      ensures rest[i].node != x.node
    {
      assert (rest + [x])[i] == rest[i] && (rest + [x])[|rest|] == x;
    }
  }

  /** Matching over more than half of the nodes: two agreements share a node among their responses. */
  lemma AgreementsMeet<T(!new), U(!new), K(!new), L(!new)>(
      cfg: seq<ID>, rs: seq<Response<T>>, key: T -> K, n: nat, a: nat, r: Matched<T>,
      ts: seq<Response<U>>, mark: U -> L, m: nat, b: nat, t: Matched<U>)
    returns (node: ID)
    requires NodesOf(rs) <= SetOf(cfg) && NodesOf(ts) <= SetOf(cfg) && 2 * n > |cfg| && 2 * m > |cfg|
    requires AllReply(Firsts(rs)) && 0 < a <= |Firsts(rs)| && FirstAgreement(key, n, Firsts(rs), a, r)
    requires AllReply(Firsts(ts)) && 0 < b <= |Firsts(ts)| && FirstAgreement(mark, m, Firsts(ts), b, t)
    ensures node in NodesOf(r.responses) && node in NodesOf(t.responses)
  {
    AgreementNodes(cfg, rs, key, n, a, r);
    AgreementNodes(cfg, ts, mark, m, b, t);
    node := Pigeonhole(cfg, NodesOf(r.responses), NodesOf(t.responses));
  }

  lemma AgreementNodes<T(!new), K(!new)>(cfg: seq<ID>, rs: seq<Response<T>>, key: T -> K, n: nat, a: nat, r: Matched<T>)
    requires NodesOf(rs) <= SetOf(cfg)
    requires AllReply(Firsts(rs)) && 0 < a <= |Firsts(rs)| && FirstAgreement(key, n, Firsts(rs), a, r)
    ensures NodesOf(r.responses) <= SetOf(cfg) && |NodesOf(r.responses)| == n
  {
    var xs := Firsts(rs)[..a];
    FirstsNodes(rs);
    RepliedInConfig(rs, cfg);
    PrefixNodes(Firsts(rs), a);
    WithKeyDistinct(key, key(Firsts(rs)[a - 1].outcome.value), xs);
    NodesCount(r.responses);
  }

  lemma PrefixNodes<T>(xs: seq<Response<T>>, a: nat)
    requires DistinctNodes(xs) && a <= |xs|
    ensures DistinctNodes(xs[..a]) && NodesOf(xs[..a]) <= NodesOf(xs)
  {
    forall i | 0 <= i < a
      ensures xs[..a][i].node in NodesOf(xs)
    {
      assert xs[..a][i] == xs[i];
    }
  }
}
