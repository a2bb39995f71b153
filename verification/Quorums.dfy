/**
 * The terminal methods of a quorum call (internal/impl/responses.go and terminals.go) over the
 * sequence of responses that the call yields in arrival order.
 */
module Quorums {
  import opened Requests

  /** What a node contributed: a reply, an error, or a skip asked for by a request transform. */
  datatype Outcome<T> = Reply(value: T) | Failure(err: Err) | Skipped

  datatype Response<T> = Response(node: ID, outcome: Outcome<T>)

  datatype NodeError = NodeError(node: ID, err: Err)

  datatype CallError = EmptyConfig | Incomplete(errs: seq<NodeError>) | Rejected(code: nat)

  datatype Result<T> = Ok(value: T) | Error(error: CallError)

  // ---- what the terminal methods count ----

  function Successes<T>(rs: seq<Response<T>>): seq<Response<T>> {
    if rs == [] then [] else (if rs[0].outcome.Reply? then [rs[0]] else []) + Successes(rs[1..])
  }

  function Failures<T>(rs: seq<Response<T>>): seq<NodeError> {
    if rs == [] then []
    else (if rs[0].outcome.Failure? then [NodeError(rs[0].node, rs[0].outcome.err)] else []) + Failures(rs[1..])
  }

  /** Replies of nodes that are not yet seen, each node's first one only. */
  function FirstsFrom<T>(seen: set<ID>, rs: seq<Response<T>>): seq<Response<T>>
    decreases |rs|
  {
    if rs == [] then []
    else if rs[0].outcome.Reply? && rs[0].node !in seen
    then [rs[0]] + FirstsFrom(seen + {rs[0].node}, rs[1..])
    else FirstsFrom(seen, rs[1..])
  }

  function Firsts<T>(rs: seq<Response<T>>): seq<Response<T>> {
    FirstsFrom({}, rs)
  }

  function NodesOf<T>(rs: seq<Response<T>>): set<ID> {
    set i | 0 <= i < |rs| :: rs[i].node
  }

  predicate DistinctNodes<T>(rs: seq<Response<T>>) {
    forall i, j :: 0 <= i < j < |rs| ==> rs[i].node != rs[j].node
  }

  // ---- Threshold, Majority, First, All ----

  /** The first reply once threshold replies have arrived; otherwise all node errors. */
  method Threshold<T>(rs: seq<Response<T>>, callErr: Option<CallError>, threshold: int) returns (r: Result<T>)
    requires threshold > 0
    ensures callErr.Some? ==> r == Error(callErr.value)
    ensures callErr.None? ==> (r.Ok? <==> |Successes(rs)| >= threshold)
    ensures callErr.None? && r.Ok? ==> Successes(rs)[0].outcome == Reply(r.value)
    ensures callErr.None? && r.Error? ==> r.error == Incomplete(Failures(rs))
  {
    SuccessesReply(rs);
    if callErr.Some? {
      return Error(callErr.value);
    }
    var count, errs := 0, [];
    assert rs[0..] == rs;
    var first: Option<T> := None;
    for i := 0 to |rs|
      invariant 0 <= count < threshold
      invariant |Successes(rs)| == count + |Successes(rs[i..])|
      invariant Failures(rs) == errs + Failures(rs[i..])
      invariant first.Some? <==> count > 0
      invariant count == 0 ==> Successes(rs) == Successes(rs[i..])
      invariant count > 0 ==> Successes(rs)[0].outcome == Reply(first.value)
    {
      SuccessesStep(rs, i);
      FailuresStep(rs, i);
      var result := rs[i];
      if result.outcome.Skipped? {
        continue;
      }
      if result.outcome.Failure? {
        errs := errs + [NodeError(result.node, result.outcome.err)];
        continue;
      }
      if count == 0 {
        first := Some(result.outcome.value);
      }
      count := count + 1;
      if count >= threshold {
        return Ok(first.value);
      }
    }
    return Error(Incomplete(errs));
  }

  lemma {:induction false} SuccessesReply<T>(rs: seq<Response<T>>)
    ensures |Successes(rs)| <= |rs|
    ensures forall i :: 0 <= i < |Successes(rs)| ==> Successes(rs)[i].outcome.Reply? && Successes(rs)[i] in rs
  {
    if rs != [] {
      SuccessesReply(rs[1..]);
    }
  }

  method First<T>(rs: seq<Response<T>>, callErr: Option<CallError>) returns (r: Result<T>)
    ensures callErr.Some? ==> r == Error(callErr.value)
    ensures callErr.None? ==> (r.Ok? <==> Successes(rs) != [])
    ensures callErr.None? && r.Ok? ==> Successes(rs)[0].outcome == Reply(r.value)
    ensures callErr.None? && r.Error? ==> r.error == Incomplete(Failures(rs))
  {
    SuccessesReply(rs);
    r := Threshold(rs, callErr, 1);
  }

  method Majority<T>(rs: seq<Response<T>>, callErr: Option<CallError>, size: nat) returns (r: Result<T>)
    ensures callErr.Some? ==> r == Error(callErr.value)
    ensures callErr.None? ==> (r.Ok? <==> 2 * |Successes(rs)| > size)
    ensures callErr.None? && r.Ok? ==> Successes(rs)[0].outcome == Reply(r.value)
    ensures callErr.None? && r.Error? ==> r.error == Incomplete(Failures(rs))
  {
    SuccessesReply(rs);
    r := Threshold(rs, callErr, size / 2 + 1);
  }

  /** A call without an error has nodes, so its size is positive. */
  method All<T>(rs: seq<Response<T>>, callErr: Option<CallError>, size: nat) returns (r: Result<T>)
    requires callErr.None? ==> size > 0
    ensures callErr.Some? ==> r == Error(callErr.value)
    ensures callErr.None? ==> (r.Ok? <==> |Successes(rs)| >= size)
    ensures callErr.None? && r.Ok? ==> Successes(rs)[0].outcome == Reply(r.value)
    ensures callErr.None? && r.Error? ==> r.error == Incomplete(Failures(rs))
  {
    SuccessesReply(rs);
    if callErr.Some? {
      return Error(callErr.value);
    }
    r := Threshold(rs, callErr, size);
  }

  // ---- the tally of distinct nodes ----

  class NodeTally {
    var counted: seq<ID>
    var errs: seq<NodeError>

    constructor ()
      ensures counted == [] && errs == []
    {
      counted, errs := [], [];
    }

    /** Whether the response is its node's first reply; errors other than skips are kept. */
    method Add<T>(r: Response<T>) returns (counts: bool)
      modifies this
      ensures counts <==> r.outcome.Reply? && r.node !in old(counted)
      ensures counted == if counts then old(counted) + [r.node] else old(counted)
      ensures errs == if r.outcome.Failure? then old(errs) + [NodeError(r.node, r.outcome.err)] else old(errs)
    {
      if r.outcome.Skipped? {
        return false;
      }
      if r.outcome.Failure? {
        errs := errs + [NodeError(r.node, r.outcome.err)];
        return false;
      }
      if r.node in counted {
        return false;
      }
      counted := counted + [r.node];
      return true;
    }
  }

  function SetOf(ids: seq<ID>): set<ID> {
    set i | 0 <= i < |ids| :: ids[i]
  }

  lemma SetOfAppend(ids: seq<ID>, id: ID)
    ensures SetOf(ids + [id]) == SetOf(ids) + {id}
  {
    var all := ids + [id];
    assert all[|ids|] == id;
    assert forall i :: 0 <= i < |ids| ==> all[i] == ids[i];
  }

  lemma FirstsStep<T>(seen: seq<ID>, rs: seq<Response<T>>, i: nat)
    requires i < |rs|
    ensures FirstsFrom(SetOf(seen), rs[i..]) ==
            if rs[i].outcome.Reply? && rs[i].node !in seen
            then [rs[i]] + FirstsFrom(SetOf(seen + [rs[i].node]), rs[i + 1..])
            else FirstsFrom(SetOf(seen), rs[i + 1..])
  {
    assert rs[i..][1..] == rs[i + 1..];
    SetOfAppend(seen, rs[i].node);
  }

  lemma FailuresStep<T>(rs: seq<Response<T>>, i: nat)
    requires i < |rs|
    ensures Failures(rs[i..])
         == (if rs[i].outcome.Failure? then [NodeError(rs[i].node, rs[i].outcome.err)] else []) + Failures(rs[i + 1..])
  {
    assert rs[i..][1..] == rs[i + 1..];
  }

  lemma SuccessesStep<T>(rs: seq<Response<T>>, i: nat)
    requires i < |rs|
    ensures Successes(rs[i..]) == (if rs[i].outcome.Reply? then [rs[i]] else []) + Successes(rs[i + 1..])
  {
    assert rs[i..][1..] == rs[i + 1..];
  }

  lemma FirstsStart<T>(rs: seq<Response<T>>)
    ensures rs[0..] == rs && SetOf([]) == {}
  {
  }

  lemma NoneLeft<T>(seen: seq<ID>, rs: seq<Response<T>>)
    ensures FirstsFrom(SetOf(seen), rs[|rs|..]) == [] && Failures(rs[|rs|..]) == []
  {
  }

  // ---- Reduce ----

  datatype Reduced<A> = Reduced(acc: A, error: Option<CallError>)

  /** The fold over the first n responses of xs, stopped by an error of add. */
  function Fold<T, A>(add: (A, Response<T>) -> Reduced<A>, acc: A, xs: seq<Response<T>>,
                      n: nat, errs: seq<NodeError>): Reduced<A>
  {
    if n == 0 then Reduced(acc, None)
    else if xs == [] then Reduced(acc, Some(Incomplete(errs)))
    else
      var next := add(acc, xs[0]);
      if next.error.Some? then next else Fold(add, next.acc, xs[1..], n - 1, errs)
  }

  lemma FoldStep<T, A>(add: (A, Response<T>) -> Reduced<A>, acc: A, x: Response<T>, xs: seq<Response<T>>,
                       n: nat, errs: seq<NodeError>)
    requires n > 0
    ensures Fold(add, acc, [x] + xs, n, errs) ==
            var next := add(acc, x);
            if next.error.Some? then next else Fold(add, next.acc, xs, n - 1, errs)
  {
    assert ([x] + xs)[1..] == xs;
  }

  /** Folds the first replies of up to n nodes, in arrival order. */
  method Reduce<T, A>(rs: seq<Response<T>>, callErr: Option<CallError>, n: int, initial: A,
                      add: (A, Response<T>) -> Reduced<A>)
    returns (r: Reduced<A>)
    requires n > 0
    ensures callErr.Some? ==> r == Reduced(initial, callErr)
    ensures callErr.None? ==> r == Fold(add, initial, Firsts(rs), n, Failures(rs))
  {
    if callErr.Some? {
      return Reduced(initial, callErr);
    }
    var acc := initial;
    var tally := new NodeTally();
    FirstsStart(rs);
    for i := 0 to |rs|
      invariant fresh(tally) && |tally.counted| < n
      invariant Folding(add, initial, rs, n, i, tally.counted, tally.errs, acc)
    {
      FoldingStep(add, initial, rs, n, i, tally.counted, tally.errs, acc);
      var counts := tally.Add(rs[i]);
      if !counts {
        continue;
      }
      var next := add(acc, rs[i]);
      acc := next.acc;
      if next.error.Some? {
        return next;
      }
      if |tally.counted| >= n {
        return Reduced(acc, None);
      }
    }
    NoneLeft(tally.counted, rs);
    assert tally.errs + [] == tally.errs;
    return Reduced(acc, Some(Incomplete(tally.errs)));
  }

  /** After i responses: what is left to fold gives the result of the whole fold. */
  ghost predicate Folding<T, A>(add: (A, Response<T>) -> Reduced<A>, initial: A, rs: seq<Response<T>>, n: nat, i: nat,
                                counted: seq<ID>, errs: seq<NodeError>, acc: A)
    requires i <= |rs| && |counted| <= n
  {
    && Failures(rs) == errs + Failures(rs[i..])
    && Fold(add, initial, Firsts(rs), n, Failures(rs))
       == Fold(add, acc, FirstsFrom(SetOf(counted), rs[i..]), n - |counted|, Failures(rs))
  }

  lemma FoldingStep<T, A>(add: (A, Response<T>) -> Reduced<A>, initial: A, rs: seq<Response<T>>, n: nat, i: nat,
                          counted: seq<ID>, errs: seq<NodeError>, acc: A)
    requires i < |rs| && |counted| < n && Folding(add, initial, rs, n, i, counted, errs, acc)
    ensures !(rs[i].outcome.Reply? && rs[i].node !in counted) ==>
              Folding(add, initial, rs, n, i + 1, counted,
                      if rs[i].outcome.Failure? then errs + [NodeError(rs[i].node, rs[i].outcome.err)] else errs, acc)
    ensures rs[i].outcome.Reply? && rs[i].node !in counted ==>
              var next := add(acc, rs[i]);
              if next.error.Some? then Fold(add, initial, Firsts(rs), n, Failures(rs)) == next
              else Folding(add, initial, rs, n, i + 1, counted + [rs[i].node], errs, next.acc)
  {
    FirstsStep(counted, rs, i);
    FailuresStep(rs, i);
    FoldStep(add, acc, rs[i], FirstsFrom(SetOf(counted + [rs[i].node]), rs[i + 1..]), n - |counted|, Failures(rs));
  }

  // ---- Matching ----

  function WithKey<T, K(==)>(key: T -> K, k: K, xs: seq<Response<T>>): seq<Response<T>>
    requires AllReply(xs)
  {
    if xs == [] then [] else
      var last := xs[|xs| - 1];
      WithKey(key, k, xs[..|xs| - 1]) + (if key(last.outcome.value) == k then [last] else [])
  }

  predicate AllReply<T>(xs: seq<Response<T>>) {
    forall i :: 0 <= i < |xs| ==> xs[i].outcome.Reply?
  }

  lemma {:induction false} FirstsReply<T>(seen: set<ID>, rs: seq<Response<T>>)
    ensures AllReply(FirstsFrom(seen, rs))
    decreases |rs|
  {
    if rs != [] {
      if rs[0].outcome.Reply? && rs[0].node !in seen {
        FirstsReply(seen + {rs[0].node}, rs[1..]);
      } else {
        FirstsReply(seen, rs[1..]);
      }
    }
  }

  /** Some key has n replies among xs. */
  ghost predicate Agreed<T(!new), K(!new)>(key: T -> K, n: nat, xs: seq<Response<T>>)
    requires AllReply(xs)
  {
    exists k :: |WithKey(key, k, xs)| >= n
  }

  datatype Matched<T> = Agreement(value: T, responses: seq<Response<T>>) | NoAgreement(error: CallError)

  /** The first n replies with one key, of the key that first has n of them. */
  ghost predicate FirstAgreement<T(!new), K(!new)>(key: T -> K, n: nat, xs: seq<Response<T>>, m: nat, r: Matched<T>)
    requires AllReply(xs) && 0 < m <= |xs|
  {
    && r.Agreement? && |r.responses| == n
    && r.responses == WithKey(key, key(xs[m - 1].outcome.value), xs[..m])
    && r.responses[0].outcome.Reply? && r.value == r.responses[0].outcome.value
    && !Agreed(key, n, xs[..m - 1])
  }

  /** The agreement of the first key that n distinct nodes' first replies share. */
  method Matching<T(!new), K(!new, ==)>(rs: seq<Response<T>>, callErr: Option<CallError>, n: int, key: T -> K)
    returns (r: Matched<T>)
    requires n > 0
    ensures callErr.Some? ==> r == NoAgreement(callErr.value)
    ensures AllReply(Firsts(rs))
    ensures callErr.None? ==> (r.Agreement? <==> Agreed(key, n, Firsts(rs)))
    ensures callErr.None? && r.Agreement? ==>
              exists m :: 0 < m <= |Firsts(rs)| && FirstAgreement(key, n, Firsts(rs), m, r)
    ensures callErr.None? && r.NoAgreement? ==> r.error == Incomplete(Failures(rs))
  {
    FirstsReply({}, rs);
    if callErr.Some? {
      return NoAgreement(callErr.value);
    }
    FirstsStart(rs);
    var tally := new NodeTally();
    var buckets: map<K, seq<Response<T>>> := map[];
    for i := 0 to |rs|
      invariant fresh(tally)
      invariant Grouped(key, n, rs, i, tally.counted, tally.errs, buckets)
    {
      ghost var seen, errs := tally.counted, tally.errs;
      var counts := tally.Add(rs[i]);
      if !counts {
        GroupedSkip(key, n, rs, i, seen, errs, buckets);
        continue;
      }
      var k := key(rs[i].outcome.value);
      var bucket := (if k in buckets then buckets[k] else []) + [rs[i]];
      GroupedStep(key, n, rs, i, seen, errs, buckets);
      buckets := buckets[k := bucket];
      if |bucket| >= n {
        FullAgrees(key, n, Firsts(rs), |seen| + 1, bucket);
        return Agreement(bucket[0].outcome.value, bucket);
      }
    }
    NoneLeft(tally.counted, rs);
    assert Firsts(rs)[..|tally.counted|] == Firsts(rs);
    return NoAgreement(Incomplete(tally.errs));
  }

  /** After i responses: the counted nodes, the errors and the buckets of the replies so far. */
  ghost predicate Grouped<T(!new), K(!new)>(key: T -> K, n: nat, rs: seq<Response<T>>, i: nat, counted: seq<ID>,
                                            errs: seq<NodeError>, buckets: map<K, seq<Response<T>>>)
    requires AllReply(Firsts(rs)) && i <= |rs|
  {
    && Failures(rs) == errs + Failures(rs[i..])
    && |counted| <= |Firsts(rs)|
    && Firsts(rs)[|counted|..] == FirstsFrom(SetOf(counted), rs[i..])
    && Buckets(key, n, Firsts(rs)[..|counted|], buckets)
  }

  lemma GroupedSkip<T(!new), K(!new)>(key: T -> K, n: nat, rs: seq<Response<T>>, i: nat, counted: seq<ID>,
                                      errs: seq<NodeError>, buckets: map<K, seq<Response<T>>>)
    requires AllReply(Firsts(rs)) && i < |rs| && Grouped(key, n, rs, i, counted, errs, buckets)
    requires !(rs[i].outcome.Reply? && rs[i].node !in counted)
    ensures Grouped(key, n, rs, i + 1, counted,
                    if rs[i].outcome.Failure? then errs + [NodeError(rs[i].node, rs[i].outcome.err)] else errs, buckets)
  {
    FirstsStep(counted, rs, i);
    FailuresStep(rs, i);
  }

  /** The bucket that the next reply xs[m] goes to, with that reply. */
  ghost function BucketWith<T, K>(key: T -> K, buckets: map<K, seq<Response<T>>>, x: Response<T>): seq<Response<T>>
    requires x.outcome.Reply?
  {
    (if key(x.outcome.value) in buckets then buckets[key(x.outcome.value)] else []) + [x]
  }

  lemma GroupedStep<T(!new), K(!new)>(key: T -> K, n: nat, rs: seq<Response<T>>, i: nat, counted: seq<ID>,
                                      errs: seq<NodeError>, buckets: map<K, seq<Response<T>>>)
    requires AllReply(Firsts(rs)) && i < |rs| && n > 0 && Grouped(key, n, rs, i, counted, errs, buckets)
    requires rs[i].outcome.Reply? && rs[i].node !in counted
    ensures |counted| < |Firsts(rs)|
    ensures var bucket := BucketWith(key, buckets, rs[i]);
            if |bucket| < n
            then Grouped(key, n, rs, i + 1, counted + [rs[i].node], errs, buckets[key(rs[i].outcome.value) := bucket])
            else Full(key, n, Firsts(rs), |counted| + 1, bucket)
  {
    NextFirst(rs, i, counted);
    FailuresStep(rs, i);
    BucketsStep(key, n, Firsts(rs), |counted|, buckets);
  }

  /** The bucket is the first to have n replies, with the m-th one. */
  ghost predicate Full<T(!new), K(!new)>(key: T -> K, n: nat, xs: seq<Response<T>>, m: nat, bucket: seq<Response<T>>)
    requires AllReply(xs) && 0 < m <= |xs|
  {
    && |bucket| == n && bucket == WithKey(key, key(xs[m - 1].outcome.value), xs[..m])
    && !Agreed(key, n, xs[..m - 1])
  }

  lemma FullAgrees<T(!new), K(!new)>(key: T -> K, n: nat, xs: seq<Response<T>>, m: nat, bucket: seq<Response<T>>)
    requires AllReply(xs) && 0 < m <= |xs| && n > 0 && Full(key, n, xs, m, bucket)
    ensures AllReply(bucket) && FirstAgreement(key, n, xs, m, Agreement(bucket[0].outcome.value, bucket))
    ensures Agreed(key, n, xs)
  {
    WithKeyReply(key, key(xs[m - 1].outcome.value), xs[..m]);
    WithKeyGrows(key, key(xs[m - 1].outcome.value), xs, m);
  }

  lemma NextFirst<T>(rs: seq<Response<T>>, i: nat, counted: seq<ID>)
    requires i < |rs| && |counted| <= |Firsts(rs)|
    requires Firsts(rs)[|counted|..] == FirstsFrom(SetOf(counted), rs[i..])
    requires rs[i].outcome.Reply? && rs[i].node !in counted
    ensures |counted| < |Firsts(rs)| && Firsts(rs)[|counted|] == rs[i]
    ensures Firsts(rs)[|counted| + 1..] == FirstsFrom(SetOf(counted + [rs[i].node]), rs[i + 1..])
  {
    var rest := FirstsFrom(SetOf(counted + [rs[i].node]), rs[i + 1..]);
    FirstsStep(counted, rs, i);
    assert Firsts(rs)[|counted|..] == [rs[i]] + rest;
    assert Firsts(rs)[|counted|..][0] == rs[i] && Firsts(rs)[|counted|..][1..] == rest;
    assert Firsts(rs)[|counted|..][1..] == Firsts(rs)[|counted| + 1..];
  }

  /** The buckets hold the replies so far by key, and none is full. */
  ghost predicate Buckets<T(!new), K(!new)>(key: T -> K, n: nat, xs: seq<Response<T>>,
                                            buckets: map<K, seq<Response<T>>>)
    requires AllReply(xs)
  {
    forall k :: |WithKey(key, k, xs)| < n && WithKey(key, k, xs) == if k in buckets then buckets[k] else []
  }

  lemma BucketsStep<T(!new), K(!new)>(key: T -> K, n: nat, xs: seq<Response<T>>, m: nat,
                                      buckets: map<K, seq<Response<T>>>)
    requires AllReply(xs) && m < |xs| && Buckets(key, n, xs[..m], buckets)
    ensures var k, bucket := key(xs[m].outcome.value), BucketWith(key, buckets, xs[m]);
            && bucket == WithKey(key, k, xs[..m + 1]) && |bucket| <= n
            && (|bucket| < n ==> Buckets(key, n, xs[..m + 1], buckets[k := bucket]))
            && !Agreed(key, n, xs[..m])
  {
    assert xs[..m + 1][..m] == xs[..m];
    var k := key(xs[m].outcome.value);
    forall k' | k' != k
      ensures WithKey(key, k', xs[..m + 1]) == WithKey(key, k', xs[..m])
    {
    }
  }

  lemma {:induction false} WithKeyReply<T, K>(key: T -> K, k: K, xs: seq<Response<T>>)
    requires AllReply(xs)
    ensures AllReply(WithKey(key, k, xs))
    ensures forall i :: 0 <= i < |WithKey(key, k, xs)| ==> WithKey(key, k, xs)[i] in xs
  {
    if xs != [] {
      WithKeyReply(key, k, xs[..|xs| - 1]);
    }
  }

  lemma {:induction false} WithKeyGrows<T, K>(key: T -> K, k: K, xs: seq<Response<T>>, m: nat)
    requires AllReply(xs) && m <= |xs|
    ensures |WithKey(key, k, xs[..m])| <= |WithKey(key, k, xs)|
    decreases |xs|
  {
    if m == |xs| {
      assert xs[..m] == xs;
    } else {
      assert xs[..|xs| - 1][..m] == xs[..m];
      WithKeyGrows(key, k, xs[..|xs| - 1], m);
    }
  }
}
