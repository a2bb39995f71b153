/** Whom a quorum call asks, and under which message IDs (internal/impl/call_context.go). */
module FanOut {
  import opened Requests
  import opened Quorums
  import MessageIds

  /** A configured node; a shared one sends on a stream that also carries its peer's calls. */
  datatype Node = Node(id: ID, shared: bool)

  /** What happened with one node: a message was enqueued for it, or an error reported instead. */
  datatype Asked = Asked(node: ID, msgId: Option<nat>)

  function NodesAsked(asked: seq<Asked>): (r: seq<ID>)
    ensures |r| == |asked| && forall i :: 0 <= i < |asked| ==> r[i] == asked[i].node
  {
    seq(|asked|, i requires 0 <= i < |asked| => asked[i].node)
  }

  /** Every node of the configuration was asked once, and nobody else. */
  predicate AsksEachOnce(cfg: seq<Node>, asked: seq<Asked>) {
    Distinct(NodesAsked(asked)) && SetOf(NodesAsked(asked)) == SetOf(Ids(cfg))
  }

  function Ids(cfg: seq<Node>): (r: seq<ID>)
    ensures |r| == |cfg| && forall i :: 0 <= i < |cfg| ==> r[i] == cfg[i].id
  {
    seq(|cfg|, i requires 0 <= i < |cfg| => cfg[i].id)
  }

  /** The position of the i-th node of a rotation that begins at start. */
  function IndexOf(start: nat, i: nat, n: nat): (r: nat)
    requires n > 0
    ensures r < n
  {
    (start + i) % n
  }

  /** How many shared nodes were asked before the i-th. */
  function SharedBefore(cfg: seq<Node>, start: nat, i: nat): (r: nat)
    requires cfg != []
    ensures r <= i
  {
    if i == 0 then 0 else
      SharedBefore(cfg, start, i - 1) + (if cfg[IndexOf(start, i - 1, |cfg|)].shared then 1 else 0)
  }

  /** The ID that the i-th node's message carries; server holds the numbers that the call draws. */
  function MsgIdOf(cfg: seq<Node>, start: nat, client: nat, server: seq<MessageIds.Id>, i: nat): nat
    requires i < |cfg| <= |server|
  {
    if cfg[IndexOf(start, i, |cfg|)].shared
    then MessageIds.ServerSequenceNumber(server[SharedBefore(cfg, start, i)])
    else client
  }

  /** Numbers drawn from a counter below 2^63, other callers drawing in between. */
  predicate Drawn(server: seq<MessageIds.Id>) {
    && (forall i :: 0 <= i < |server| ==> server[i] < MessageIds.SERVER_BIT)
    && (forall i, j :: 0 <= i < j < |server| ==> server[i] < server[j])
  }

  /**
   * Asks every node once, from a random one on and around. Ordinary nodes share one message and
   * its client ID; every shared node gets a server ID of its own. A request that cannot be
   * marshaled is reported as an error of every node instead.
   */
  method SendShared(cfg: seq<Node>, marshals: bool, start: nat, client: nat, server: seq<MessageIds.Id>)
    returns (asked: seq<Asked>)
    requires Distinct(Ids(cfg))
    requires cfg != [] ==> start < |cfg|
    requires client < MessageIds.SERVER_BIT && Drawn(server) && |server| >= |cfg|
    ensures AsksEachOnce(cfg, asked)
    ensures forall a <- asked :: a.msgId.Some? <==> marshals
    ensures forall a <- asked, n <- cfg :: marshals && a.node == n.id && !n.shared ==> a.msgId == Some(client)
    ensures forall a <- asked, n <- cfg :: marshals && a.node == n.id && n.shared ==>
              a.msgId.value >= MessageIds.SERVER_BIT && forall b <- asked :: b.msgId == a.msgId ==> b == a
  {
    asked := [];
    if !marshals {
      for i := 0 to |cfg|
        invariant |asked| == i && forall k :: 0 <= k < i ==> asked[k] == Asked(cfg[k].id, None)
      {
        asked := asked + [Asked(cfg[i].id, None)];
      }
      InOrderAsksEachOnce(cfg, asked);
      return;
    }
    var shared := 0;
    for i := 0 to |cfg|
      invariant |asked| == i && shared <= i
      invariant cfg != [] ==> shared == SharedBefore(cfg, start, i)
      invariant forall k :: 0 <= k < i ==> asked[k] == Message(cfg, start, client, server, k)
    {
      var n := cfg[IndexOf(start, i, |cfg|)];
      if n.shared {
        asked := asked + [Asked(n.id, Some(MessageIds.ServerSequenceNumber(server[shared])))];
        shared := shared + 1;
      } else {
        asked := asked + [Asked(n.id, Some(client))];
      }
    }
    RotationAsksEachOnce(cfg, start, client, server, asked);
    RotationIds(cfg, start, client, server, asked);
  }

  function Message(cfg: seq<Node>, start: nat, client: nat, server: seq<MessageIds.Id>, i: nat): Asked
    requires i < |cfg| <= |server|
  {
    Asked(cfg[IndexOf(start, i, |cfg|)].id, Some(MsgIdOf(cfg, start, client, server, i)))
  }

  /**
   * Asks the nodes in order, each with a message transformed for it; a node whose request cannot
   * be sent, or is skipped, is reported as an error instead.
   */
  method SendPerNode(cfg: seq<Node>, sends: seq<bool>, ids: seq<nat>) returns (asked: seq<Asked>)
    requires Distinct(Ids(cfg)) && |sends| == |ids| == |cfg|
    ensures AsksEachOnce(cfg, asked)
    ensures |asked| == |cfg| && forall i :: 0 <= i < |cfg| ==> asked[i].node == cfg[i].id
    ensures forall i :: 0 <= i < |cfg| ==> asked[i].msgId == if sends[i] then Some(ids[i]) else None
  {
    asked := [];
    for i := 0 to |cfg|
      invariant |asked| == i && forall k :: 0 <= k < i ==>
                  asked[k] == Asked(cfg[k].id, if sends[k] then Some(ids[k]) else None)
    {
      if !sends[i] {
        asked := asked + [Asked(cfg[i].id, None)];
        continue;
      }
      asked := asked + [Asked(cfg[i].id, Some(ids[i]))];
    }
    InOrderAsksEachOnce(cfg, asked);
  }

  lemma InOrderAsksEachOnce(cfg: seq<Node>, asked: seq<Asked>)
    requires Distinct(Ids(cfg)) && |asked| == |cfg|
    requires forall i :: 0 <= i < |cfg| ==> asked[i].node == cfg[i].id
    ensures AsksEachOnce(cfg, asked)
  {
    assert NodesAsked(asked) == Ids(cfg);
  }

  lemma RotationAsksEachOnce(cfg: seq<Node>, start: nat, client: nat, server: seq<MessageIds.Id>, asked: seq<Asked>)
    requires Distinct(Ids(cfg)) && |asked| == |cfg| <= |server| && (cfg != [] ==> start < |cfg|)
    requires forall i :: 0 <= i < |cfg| ==> asked[i] == Message(cfg, start, client, server, i)
    ensures AsksEachOnce(cfg, asked)
  {
    if cfg == [] {
      assert NodesAsked(asked) == Ids(cfg);
    } else {
      RotationOf(Ids(cfg), start, NodesAsked(asked));
    }
  }

  /** A rotation of distinct IDs lists each of them once. */
  lemma RotationOf(ids: seq<ID>, start: nat, r: seq<ID>)
    requires Distinct(ids) && start < |ids| == |r|
    requires forall i :: 0 <= i < |ids| ==> r[i] == ids[IndexOf(start, i, |ids|)]
    ensures Distinct(r) && SetOf(r) == SetOf(ids)
  {
    forall i, k | 0 <= i < k < |r|
      ensures r[i] != r[k]
    {
      IndexIs(start, i, |ids|);
      IndexIs(start, k, |ids|);
    }
    forall id | id in SetOf(ids)
      ensures id in SetOf(r)
    {
      var j :| 0 <= j < |ids| && ids[j] == id;
      var i := RotationVisitsEachOnce(start, |ids|, j);
      assert r[i] == id;
    }
    forall id | id in SetOf(r)
      ensures id in SetOf(ids)
    {
      var i :| 0 <= i < |r| && r[i] == id;
      assert ids[IndexOf(start, i, |ids|)] == id;
    }
  }

  /** A node's entry tells whether the node is shared. */
  lemma EntryOf(cfg: seq<Node>, start: nat, client: nat, server: seq<MessageIds.Id>, i: nat, n: Node)
    requires Distinct(Ids(cfg)) && i < |cfg| <= |server| && n in cfg
    requires Message(cfg, start, client, server, i).node == n.id
    ensures cfg[IndexOf(start, i, |cfg|)] == n
  {
    var j :| 0 <= j < |cfg| && cfg[j] == n;
    assert Ids(cfg)[j] == Ids(cfg)[IndexOf(start, i, |cfg|)];
  }

  lemma RotationIds(cfg: seq<Node>, start: nat, client: nat, server: seq<MessageIds.Id>, asked: seq<Asked>)
    requires Distinct(Ids(cfg)) && |asked| == |cfg| <= |server| && Drawn(server) && client < MessageIds.SERVER_BIT
    requires forall i :: 0 <= i < |cfg| ==> asked[i] == Message(cfg, start, client, server, i)
    ensures forall a <- asked, n <- cfg :: a.node == n.id && !n.shared ==> a.msgId == Some(client)
    ensures forall a <- asked, n <- cfg :: a.node == n.id && n.shared ==>
              a.msgId.Some? && a.msgId.value >= MessageIds.SERVER_BIT
              && forall b <- asked :: b.msgId == a.msgId ==> b == a
  {
    forall a, n | a in asked && n in cfg && a.node == n.id
      ensures !n.shared ==> a.msgId == Some(client)
      ensures n.shared ==> a.msgId.Some? && a.msgId.value >= MessageIds.SERVER_BIT
      ensures n.shared ==> forall b <- asked :: b.msgId == a.msgId ==> b == a
    {
      var i :| 0 <= i < |asked| && asked[i] == a;
      EntryOf(cfg, start, client, server, i, n);
      if n.shared {
        OwnServerId(cfg, start, client, server, asked, i);
      }
    }
  }

  /** No other node's message carries the ID of a shared node's. */
  lemma OwnServerId(cfg: seq<Node>, start: nat, client: nat, server: seq<MessageIds.Id>, asked: seq<Asked>, i: nat)
    requires |asked| == |cfg| <= |server| && Drawn(server) && client < MessageIds.SERVER_BIT
    requires forall k :: 0 <= k < |cfg| ==> asked[k] == Message(cfg, start, client, server, k)
    requires i < |cfg| && cfg[IndexOf(start, i, |cfg|)].shared
    ensures asked[i].msgId.Some? && asked[i].msgId.value >= MessageIds.SERVER_BIT
    ensures forall b <- asked :: b.msgId == asked[i].msgId ==> b == asked[i]
  {
    forall k | 0 <= k < |asked| && asked[k].msgId == asked[i].msgId
      ensures k == i
    {
      if k < i && cfg[IndexOf(start, k, |cfg|)].shared {
        SharedIdsDiffer(cfg, start, k, i);
      } else if i < k {
        SharedIdsDiffer(cfg, start, i, k);
      }
    }
  }

  lemma IndexIs(start: nat, i: nat, n: nat)
    requires start < n && i < n
    ensures IndexOf(start, i, n) == if start + i < n then start + i else start + i - n
  {
    PassedOnce(start + i, n);
  }

  lemma PassedOnce(x: nat, n: nat)
    requires 0 <= x < 2 * n
    ensures x % n == if x < n then x else x - n
  {
    var q := x / n;
    assert x == n * q + x % n;
    assert q >= 2 ==> n * q >= n * 2;
    assert q <= 0 ==> n * q <= 0;
    assert q == 1 ==> n * q == n;
  }

  /** The rotation asks every node of the configuration exactly once. */
  lemma RotationVisitsEachOnce(start: nat, n: nat, j: nat) returns (i: nat)
    requires start < n && j < n
    ensures i < n && IndexOf(start, i, n) == j
    ensures forall k: nat :: k < n && IndexOf(start, k, n) == j ==> k == i
  {
    i := if j >= start then j - start else j + n - start;
    IndexIs(start, i, n);
    forall k: nat | k < n && IndexOf(start, k, n) == j
      ensures k == i
    {
      IndexIs(start, k, n);
    }
  }

  /** Requests on one stream carry different IDs: those of two shared nodes never coincide. */
  lemma {:induction false} SharedIdsDiffer(cfg: seq<Node>, start: nat, i: nat, j: nat)
    requires cfg != [] && i < j && cfg[IndexOf(start, i, |cfg|)].shared
    ensures SharedBefore(cfg, start, i) < SharedBefore(cfg, start, j)
  {
    if i < j - 1 {
      SharedIdsDiffer(cfg, start, i, j - 1);
    }
  }
}
