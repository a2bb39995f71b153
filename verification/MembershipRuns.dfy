/** What inbound membership keeps over every run of connects, disconnects and client arrivals. */
module MembershipRuns {
  import opened Requests
  import opened SortedIds
  import opened Membership

  datatype Op =
    | Connect(id: ID, ch: Chan)
    | Disconnect(id: ID, ch: Chan)
    | Arrive(ch: Chan, given: Option<ID>)
    | Leave(id: ID, ch: Chan)
    | Refresh // a rebuild for another reason
    | Test(waiter: nat)

  /** The broadcast channel a waiter blocks on, and the views on which it tested its condition. */
  datatype Waiter = Waiter(generation: nat, inbound: seq<ID>, connected: seq<ID>)

  datatype World = World(s: State, waiters: map<nat, Waiter>)

  predicate Step(x: World, op: Op, x': World) {
    match op
    case Connect(id, ch) => x'.waiters == x.waiters && PeerConnects(x.s, id, ch, x'.s)
    case Disconnect(id, ch) => x'.waiters == x.waiters && PeerDisconnects(x.s, id, ch, x'.s)
    case Arrive(ch, id) => x'.waiters == x.waiters && ClientArrives(x.s, ch, id, x'.s)
    case Leave(id, ch) => x'.waiters == x.waiters && ClientLeaves(x.s, id, ch, x'.s)
    case Refresh => x'.waiters == x.waiters && Rebuilt(x.s, x'.s)
    case Test(w) => x' == x.(waiters := x.waiters[w := Waiter(x.s.generation, x.s.inbound, x.s.connected)])
  }

  predicate Opens(op: Op) {
    op.Connect? || op.Arrive?
  }

  /** A run; every stream that connects is a new one. */
  predicate IsRun(xs: seq<World>, ops: seq<Op>) {
    && |xs| == |ops| + 1
    && Initial(xs[0].s) && xs[0].waiters == map[]
    && (forall i {:trigger ops[i]} :: 0 <= i < |ops| ==> Step(xs[i], ops[i], xs[i + 1]))
    && FreshStreams(ops)
  }

  predicate FreshStreams(ops: seq<Op>) {
    forall i, j :: 0 <= i < j < |ops| && Opens(ops[i]) && Opens(ops[j]) ==> ops[i].ch != ops[j].ch
  }

  // ---- the invariant ----

  predicate NodeOk(n: Node) {
    n.active == LastOf(n.live)
  }

  predicate ClientsOk(s: State) {
    && s.nextClientID >= CLIENT_ID_START
    && forall id :: id in s.clients ==>
         NodeOk(s.clients[id]) && s.clients[id].live != [] && CLIENT_ID_START <= id < s.nextClientID && id !in s.known
  }

  predicate WaitersOk(x: World) {
    forall w :: w in x.waiters ==>
      && x.waiters[w].generation <= x.s.generation
      && (x.waiters[w].generation == x.s.generation ==>
            x.waiters[w] == Waiter(x.s.generation, x.s.inbound, x.s.connected))
  }

  predicate Inv(x: World) {
    && ViewsCurrent(x.s)
    && (forall id :: id in x.s.known ==> NodeOk(x.s.known[id]))
    && ClientsOk(x.s) && WaitersOk(x)
  }

  lemma {:induction false} WithoutKeeps(live: seq<Chan>, ch: Chan)
    requires ch in live
    ensures |Without(live, ch)| == |live| - 1
  {
    if live[0] != ch {
      WithoutKeeps(live[1..], ch);
    }
  }

  lemma DisconnectKeeps(x: World, id: ID, ch: Chan, x': World)
    requires Inv(x) && Step(x, Disconnect(id, ch), x')
    ensures Inv(x')
  {
    if ch in x.s.known[id].live {
      WithoutKeeps(x.s.known[id].live, ch);
      if |x.s.known[id].live| > 1 {
        assert InboundMembers(x'.s.myID, x'.s.known) == InboundMembers(x.s.myID, x.s.known);
      }
    } else {
      assert x'.s.known == x.s.known;
    }
  }

  lemma LeaveKeeps(x: World, id: ID, ch: Chan, x': World)
    requires Inv(x) && Step(x, Leave(id, ch), x')
    ensures Inv(x')
  {
    if id in x.s.clients && ch in x.s.clients[id].live {
      WithoutKeeps(x.s.clients[id].live, ch);
      if |x.s.clients[id].live| > 1 {
        assert ClientMembers(x'.s.clients) == ClientMembers(x.s.clients);
      }
    }
  }

  lemma StepKeeps(x: World, op: Op, x': World)
    requires Inv(x) && Step(x, op, x')
    ensures Inv(x') && x'.s.known.Keys == x.s.known.Keys && x'.s.myID == x.s.myID
    ensures x.s.nextClientID <= x'.s.nextClientID
  {
    match op
    case Disconnect(id, ch) => DisconnectKeeps(x, id, ch, x');
    case Leave(id, ch) => LeaveKeeps(x, id, ch, x');
    case Arrive(ch, given) => ArriveKeeps(x, ch, given, x');
    case _ => OtherKeeps(x, op, x');
  }

  lemma ArriveKeeps(x: World, ch: Chan, given: Option<ID>, x': World)
    requires Inv(x) && Step(x, Arrive(ch, given), x')
    ensures Inv(x') && x'.s.known == x.s.known && x.s.nextClientID <= x'.s.nextClientID
  {
  }

  lemma OtherKeeps(x: World, op: Op, x': World)
    requires Inv(x) && Step(x, op, x') && (op.Connect? || op.Refresh? || op.Test?)
    ensures Inv(x') && x'.s.known.Keys == x.s.known.Keys && x.s.nextClientID == x'.s.nextClientID
  {
  }

  lemma {:induction false} RunKeeps(xs: seq<World>, ops: seq<Op>, n: nat)
    requires IsRun(xs, ops) && n < |xs|
    ensures Inv(xs[n]) && xs[n].s.known.Keys == xs[0].s.known.Keys && xs[n].s.myID == xs[0].s.myID
  {
    if n > 0 {
      RunKeeps(xs, ops, n - 1);
      RunStep(xs, ops, n - 1);
      StepKeeps(xs[n - 1], ops[n - 1], xs[n]);
    }
  }

  lemma RunStep(xs: seq<World>, ops: seq<Op>, i: nat)
    requires IsRun(xs, ops) && i < |ops|
    ensures Step(xs[i], ops[i], xs[i + 1])
  {
  }

  // ---- views and waiters ----

  /** In every state each view is the one strictly ID-sorted list of the nodes it should hold. */
  lemma ViewsAreCurrent(xs: seq<World>, ops: seq<Op>, n: nat, inbound: seq<ID>, connected: seq<ID>)
    requires IsRun(xs, ops) && n < |xs|
    ensures Ascending(xs[n].s.inbound) && Ascending(xs[n].s.connected)
    ensures xs[n].s.inbound == inbound <==> Lists(inbound, InboundMembers(xs[n].s.myID, xs[n].s.known))
    ensures xs[n].s.connected == connected <==> Lists(connected, ClientMembers(xs[n].s.clients))
  {
    RunKeeps(xs, ops, n);
    SameList(xs[n].s.inbound, inbound, InboundMembers(xs[n].s.myID, xs[n].s.known));
    SameList(xs[n].s.connected, connected, ClientMembers(xs[n].s.clients));
  }

  lemma SameList(s: seq<nat>, t: seq<nat>, ids: set<nat>)
    requires Lists(s, ids)
    ensures s == t <==> Lists(t, ids)
  {
    if Lists(t, ids) {
      ListUnique(s, t);
    }
  }

  /** A waiter that blocks on an unclosed channel last tested its condition on the current views. */
  lemma BlockedWaitersAreCurrent(xs: seq<World>, ops: seq<Op>, n: nat, w: nat)
    requires IsRun(xs, ops) && n < |xs|
    requires w in xs[n].waiters && xs[n].waiters[w].generation >= xs[n].s.generation
    ensures Lists(xs[n].waiters[w].inbound, InboundMembers(xs[n].s.myID, xs[n].s.known))
    ensures Lists(xs[n].waiters[w].connected, ClientMembers(xs[n].s.clients))
  {
    RunKeeps(xs, ops, n);
  }

  // ---- client IDs ----

  lemma {:induction false} NextIdGrows(xs: seq<World>, ops: seq<Op>, m: nat, n: nat)
    requires IsRun(xs, ops) && m <= n < |xs|
    ensures xs[m].s.nextClientID <= xs[n].s.nextClientID
    decreases n
  {
    if m < n {
      NextIdGrows(xs, ops, m, n - 1);
      RunKeeps(xs, ops, n - 1);
      RunStep(xs, ops, n - 1);
      StepKeeps(xs[n - 1], ops[n - 1], xs[n]);
    }
  }

  /** Every client ID is new: in the client range and neither a known peer's nor a client's. */
  lemma ClientIdIsFree(xs: seq<World>, ops: seq<Op>, i: nat)
    requires IsRun(xs, ops) && i < |ops| && ops[i].Arrive? && ops[i].given.Some?
    ensures CLIENT_ID_START <= ops[i].given.value <= MAX_NODE_ID
    ensures ops[i].given.value !in xs[0].s.known && ops[i].given.value !in xs[i].s.clients
  {
    RunKeeps(xs, ops, i);
    RunStep(xs, ops, i);
  }

  /** Client IDs are given in ascending order, so none is reused. */
  lemma ClientIdsAreNew(xs: seq<World>, ops: seq<Op>, i: nat, j: nat)
    requires IsRun(xs, ops) && i < j < |ops|
    requires ops[i].Arrive? && ops[i].given.Some? && ops[j].Arrive? && ops[j].given.Some?
    ensures ops[i].given.value < ops[j].given.value
  {
    RunStep(xs, ops, i);
    RunStep(xs, ops, j);
    NextIdGrows(xs, ops, i + 1, j);
  }

  // ---- what a disconnect undoes ----

  lemma {:induction false} WithoutLast(live: seq<Chan>, ch: Chan)
    requires ch !in live
    ensures Without(live + [ch], ch) == live
  {
    if live == [] {
      assert [ch][1..] == [];
    } else {
      assert (live + [ch])[1..] == live[1..] + [ch];
      WithoutLast(live[1..], ch);
    }
  }

  /** A peer that connects and disconnects leaves every node, and both views, as they were. */
  lemma DisconnectUndoesConnect(x: World, id: ID, ch: Chan, y: World, z: World)
    requires Inv(x) && Step(x, Connect(id, ch), y) && Step(y, Disconnect(id, ch), z)
    requires ch !in x.s.known[id].live
    ensures z.s == x.s.(generation := z.s.generation)
  {
    WithoutLast(x.s.known[id].live, ch);
    assert z.s.known == x.s.known by {
      assert Detached(Attached(x.s.known[id], ch), ch) == x.s.known[id];
    }
    StepKeeps(x, Connect(id, ch), y);
    StepKeeps(y, Disconnect(id, ch), z);
    SameList(z.s.inbound, x.s.inbound, InboundMembers(x.s.myID, x.s.known));
    SameList(z.s.connected, x.s.connected, ClientMembers(x.s.clients));
  }

  /** A client that arrives and leaves is forgotten, except that its ID is not given again. */
  lemma LeaveUndoesArrive(x: World, ch: Chan, id: ID, y: World, z: World)
    requires Inv(x) && Step(x, Arrive(ch, Some(id)), y) && Step(y, Leave(id, ch), z)
    ensures z.s == x.s.(nextClientID := id + 1, generation := z.s.generation)
  {
    WithoutLast([], ch);
    assert [] + [ch] == [ch];
    assert z.s.clients == x.s.clients;
    StepKeeps(x, Arrive(ch, Some(id)), y);
    StepKeeps(y, Leave(id, ch), z);
    SameList(z.s.inbound, x.s.inbound, InboundMembers(x.s.myID, x.s.known));
    SameList(z.s.connected, x.s.connected, ClientMembers(x.s.clients));
  }

  // ---- the active channel ----

  /** The stream attached at step i has not been detached before step n. */
  predicate StillLive(ops: seq<Op>, i: nat, n: nat, id: ID, ch: Chan)
    requires n <= |ops|
  {
    forall j :: i < j < n ==> ops[j] != Disconnect(id, ch)
  }

  /** ch is the most recently attached stream of the peer that is still live. */
  ghost predicate LatestLive(ops: seq<Op>, n: nat, id: ID, ch: Chan)
    requires n <= |ops|
  {
    exists i: nat :: i < n && AttachedLast(ops, i, n, id, ch)
  }

  ghost predicate AttachedLast(ops: seq<Op>, i: nat, n: nat, id: ID, ch: Chan)
    requires i < n <= |ops|
  {
    && ops[i] == Connect(id, ch) && StillLive(ops, i, n, id, ch)
    && forall j: nat :: i < j < n && ops[j].Connect? && ops[j].id == id ==> !StillLive(ops, j, n, id, ops[j].ch)
  }

  /** at[k] is the step at which the k-th live channel was attached. */
  predicate Sources(ops: seq<Op>, n: nat, id: ID, live: seq<Chan>, at: seq<nat>)
    requires n <= |ops|
  {
    && |at| == |live|
    && forall k :: 0 <= k < |at| ==>
         at[k] < n && ops[at[k]] == Connect(id, live[k]) && StillLive(ops, at[k], n, id, live[k])
  }

  /** Every attached channel that is still live is tracked. */
  predicate Complete(ops: seq<Op>, n: nat, id: ID, at: seq<nat>)
    requires n <= |ops|
  {
    forall i: nat :: i < n && ops[i].Connect? && ops[i].id == id && StillLive(ops, i, n, id, ops[i].ch) ==> i in at
  }

  predicate Tracks(ops: seq<Op>, n: nat, id: ID, live: seq<Chan>, at: seq<nat>)
    requires n <= |ops|
  {
    Sources(ops, n, id, live, at) && Ascending(at) && Complete(ops, n, id, at)
  }

  lemma {:induction false} RunTracks(xs: seq<World>, ops: seq<Op>, n: nat, id: ID) returns (at: seq<nat>)
    requires IsRun(xs, ops) && n < |xs| && id in xs[0].s.known
    ensures id in xs[n].s.known && Tracks(ops, n, id, xs[n].s.known[id].live, at)
  {
    KnownStay(xs, ops, n, id);
    if n == 0 {
      at := [];
    } else {
      var before := RunTracks(xs, ops, n - 1, id);
      RunStep(xs, ops, n - 1);
      at := StepTracks(ops, n - 1, xs[n - 1], xs[n], id, before);
    }
  }

  lemma KnownStay(xs: seq<World>, ops: seq<Op>, n: nat, id: ID)
    requires IsRun(xs, ops) && n < |xs| && id in xs[0].s.known
    ensures id in xs[n].s.known && xs[0].s.known[id].live == []
  {
    RunKeeps(xs, ops, n);
  }

  lemma StepTracks(ops: seq<Op>, n: nat, x: World, x': World, id: ID, at: seq<nat>) returns (at': seq<nat>)
    requires n < |ops| && Step(x, ops[n], x') && FreshStreams(ops)
    requires id in x.s.known && id in x'.s.known && Tracks(ops, n, id, x.s.known[id].live, at)
    ensures Tracks(ops, n + 1, id, x'.s.known[id].live, at')
  {
    var live := x.s.known[id].live;
    if ops[n].Connect? && ops[n].id == id {
      at' := at + [n];
      AttachTracks(ops, n, id, live, at);
    } else if ops[n].Disconnect? && ops[n].id == id && ops[n].ch in live {
      at' := DetachTracks(ops, n, id, live, at);
    } else {
      at' := at;
      OtherTracks(ops, n, id, live, at);
    }
  }

  lemma AttachTracks(ops: seq<Op>, n: nat, id: ID, live: seq<Chan>, at: seq<nat>)
    requires n < |ops| && Tracks(ops, n, id, live, at) && ops[n].Connect? && ops[n].id == id
    ensures Tracks(ops, n + 1, id, live + [ops[n].ch], at + [n])
  {
    var at' := at + [n];
    forall i: nat | i < n + 1 && ops[i].Connect? && ops[i].id == id && StillLive(ops, i, n + 1, id, ops[i].ch)
      ensures i in at'
    {
      if i == n {
        assert at'[|at|] == n;
      } else {
        StillLiveBefore(ops, i, n, id, ops[i].ch);
      }
    }
  }

  lemma StillLiveBefore(ops: seq<Op>, i: nat, n: nat, id: ID, ch: Chan)
    requires n < |ops| && StillLive(ops, i, n + 1, id, ch)
    ensures StillLive(ops, i, n, id, ch)
  {
  }

  lemma OtherTracks(ops: seq<Op>, n: nat, id: ID, live: seq<Chan>, at: seq<nat>)
    requires n < |ops| && Tracks(ops, n, id, live, at)
    requires !(ops[n].Connect? && ops[n].id == id) && !(ops[n].Disconnect? && ops[n].id == id && ops[n].ch in live)
    ensures Tracks(ops, n + 1, id, live, at)
  {
    forall i: nat | i < n + 1 && ops[i].Connect? && ops[i].id == id && StillLive(ops, i, n + 1, id, ops[i].ch)
      ensures i in at
    {
      StillLiveBefore(ops, i, n, id, ops[i].ch);
    }
  }

  /** The list without its k-th element. */
  function Removed<T>(s: seq<T>, k: nat): (r: seq<T>)
    requires k < |s|
    ensures |r| == |s| - 1
    ensures forall m :: 0 <= m < |r| ==> r[m] == s[if m < k then m else m + 1]
  {
    s[..k] + s[k + 1..]
  }

  lemma DetachTracks(ops: seq<Op>, n: nat, id: ID, live: seq<Chan>, at: seq<nat>) returns (at': seq<nat>)
    requires n < |ops| && Tracks(ops, n, id, live, at) && FreshStreams(ops)
    requires ops[n].Disconnect? && ops[n].id == id && ops[n].ch in live
    ensures Tracks(ops, n + 1, id, Without(live, ops[n].ch), at')
  {
    LiveDistinct(ops, n, id, live, at);
    var k :| 0 <= k < |live| && live[k] == ops[n].ch;
    WithoutAt(live, k);
    at' := Removed(at, k);
    OthersStay(ops, n, id, live, at, k);
    RemovedComplete(ops, n, id, live, at, k);
    RemovedAscending(at, k);
  }

  lemma RemovedAscending(at: seq<nat>, k: nat)
    requires Ascending(at) && k < |at|
    ensures Ascending(Removed(at, k))
  {
  }

  lemma OthersStay(ops: seq<Op>, n: nat, id: ID, live: seq<Chan>, at: seq<nat>, k: nat)
    requires n < |ops| && Sources(ops, n, id, live, at) && k < |live|
    requires Distinct(live) && ops[n] == Disconnect(id, live[k])
    ensures Sources(ops, n + 1, id, Removed(live, k), Removed(at, k))
  {
    var at', live' := Removed(at, k), Removed(live, k);
    forall m | 0 <= m < |at'|
      ensures at'[m] < n + 1 && ops[at'[m]] == Connect(id, live'[m])
      ensures StillLive(ops, at'[m], n + 1, id, live'[m])
    {
      var m' := if m < k then m else m + 1;
      assert live[m'] != live[k];
      assert StillLive(ops, at[m'], n, id, live[m']);
    }
  }

  lemma RemovedComplete(ops: seq<Op>, n: nat, id: ID, live: seq<Chan>, at: seq<nat>, k: nat)
    requires n < |ops| && Sources(ops, n, id, live, at) && Complete(ops, n, id, at) && k < |live|
    requires ops[n] == Disconnect(id, live[k])
    ensures Complete(ops, n + 1, id, Removed(at, k))
  {
    forall i: nat | i < n + 1 && ops[i].Connect? && ops[i].id == id && StillLive(ops, i, n + 1, id, ops[i].ch)
      ensures i in Removed(at, k)
    {
      StillLiveBefore(ops, i, n, id, ops[i].ch);
      var m :| 0 <= m < |at| && at[m] == i;
      assert m != k;
      assert Removed(at, k)[if m < k then m else m - 1] == i;
    }
  }

  lemma LiveDistinct(ops: seq<Op>, n: nat, id: ID, live: seq<Chan>, at: seq<nat>)
    requires n <= |ops| && Tracks(ops, n, id, live, at) && FreshStreams(ops)
    ensures Distinct(live)
  {
    forall k, m | 0 <= k < m < |live|
      ensures live[k] != live[m]
    {
      assert Opens(ops[at[k]]) && Opens(ops[at[m]]);
    }
  }

  lemma {:induction false} WithoutAt(live: seq<Chan>, k: nat)
    requires k < |live| && Distinct(live)
    ensures Without(live, live[k]) == Removed(live, k)
  {
    if k == 0 {
      RemovedFirst(live);
    } else {
      assert live[1..][k - 1] == live[k] && live[0] != live[k];
      WithoutAt(live[1..], k - 1);
      RemovedLater(live, k);
    }
  }

  lemma RemovedFirst<T>(s: seq<T>)
    requires s != []
    ensures Removed(s, 0) == s[1..]
  {
  }

  lemma RemovedLater<T>(s: seq<T>, k: nat)
    requires 0 < k < |s|
    ensures Removed(s, k) == [s[0]] + Removed(s[1..], k - 1)
  {
  }

  /** A known peer's active channel is its most recently attached live one. */
  lemma ActiveIsLatestLive(xs: seq<World>, ops: seq<Op>, n: nat, id: ID, ch: Chan)
    requires IsRun(xs, ops) && n < |xs| && id in xs[0].s.known
    ensures id in xs[n].s.known
    ensures xs[n].s.known[id].active == Some(ch) <==> LatestLive(ops, n, id, ch)
  {
    RunKeeps(xs, ops, n);
    var at := RunTracks(xs, ops, n, id);
    var live := xs[n].s.known[id].live;
    if xs[n].s.known[id].active == Some(ch) {
      LastIsLatest(ops, n, id, live, at);
    }
    if LatestLive(ops, n, id, ch) {
      LatestIsLast(ops, n, id, live, at, ch);
    }
  }

  lemma LastIsLatest(ops: seq<Op>, n: nat, id: ID, live: seq<Chan>, at: seq<nat>)
    requires n <= |ops| && live != [] && Tracks(ops, n, id, live, at)
    ensures LatestLive(ops, n, id, live[|live| - 1])
  {
    var i := at[|at| - 1];
    assert AttachedLast(ops, i, n, id, live[|live| - 1]);
  }

  lemma LatestIsLast(ops: seq<Op>, n: nat, id: ID, live: seq<Chan>, at: seq<nat>, ch: Chan)
    requires n <= |ops| && Tracks(ops, n, id, live, at) && LatestLive(ops, n, id, ch)
    ensures LastOf(live) == Some(ch)
  {
    var i: nat :| i < n && AttachedLast(ops, i, n, id, ch);
    assert i in at;
    var j := at[|at| - 1];
    assert ops[j] == Connect(id, live[|live| - 1]) && StillLive(ops, j, n, id, ops[j].ch);
    assert i <= j && !(i < j);
  }
}
