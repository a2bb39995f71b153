/**
 * Inbound membership (internal/conn/inbound_manager.go and node.go): which peers and clients are
 * connected, the cached views of them, and the broadcast that wakes waiters. Every step holds the
 * manager's lock.
 */
module Membership {
  import opened Requests
  import opened SortedIds

  const CLIENT_ID_START := 0x10_0000
  const MAX_NODE_ID := 0xffff_ffff

  /** An attached inbound stream; every stream is a different one. */
  type Chan = nat

  /** A node's live channels in the order in which they were attached, and the active one. */
  datatype Node = Node(live: seq<Chan>, active: Option<Chan>)

  function Attached(n: Node, ch: Chan): Node {
    Node(n.live + [ch], Some(ch))
  }

  /** The list without the first occurrence of ch. */
  function Without(live: seq<Chan>, ch: Chan): seq<Chan> {
    if live == [] then []
    else if live[0] == ch then live[1..]
    else [live[0]] + Without(live[1..], ch)
  }

  function LastOf(live: seq<Chan>): Option<Chan> {
    if live == [] then None else Some(live[|live| - 1])
  }

  function Detached(n: Node, ch: Chan): Node {
    if ch in n.live then Node(Without(n.live, ch), LastOf(Without(n.live, ch))) else n
  }

  datatype State = State(myID: ID, known: map<ID, Node>, clients: map<ID, Node>,
                         inbound: seq<ID>, connected: seq<ID>, nextClientID: nat, generation: nat)

  /** The peers to list: this server itself and every peer with an active channel. */
  function InboundMembers(myID: ID, known: map<ID, Node>): set<ID> {
    set id | id in known && (id == myID || known[id].active.Some?)
  }

  function ClientMembers(clients: map<ID, Node>): set<ID> {
    set id | id in clients && clients[id].active.Some?
  }

  /** The views are what recomputing them gives, strictly sorted by ID. */
  predicate ViewsCurrent(s: State) {
    Lists(s.inbound, InboundMembers(s.myID, s.known)) && Lists(s.connected, ClientMembers(s.clients))
  }

  // ---- steps ----

  /** Recomputes the views and replaces the broadcast channel. */
  predicate Rebuilt(s: State, s': State) {
    && s' == s.(inbound := s'.inbound, connected := s'.connected, generation := s.generation + 1)
    && ViewsCurrent(s')
  }

  predicate PeerConnects(s: State, id: ID, ch: Chan, s': State) {
    id in s.known && Rebuilt(s.(known := s.known[id := Attached(s.known[id], ch)]), s')
  }

  /** Detaching rebuilds the views only when the node's last live channel goes. */
  predicate PeerDisconnects(s: State, id: ID, ch: Chan, s': State) {
    && id in s.known
    && var gone := s.(known := s.known[id := Detached(s.known[id], ch)]);
       if ch in s.known[id].live && gone.known[id].live == [] then Rebuilt(gone, s') else s' == gone
  }

  /** The least ID from next on that no known peer and no client has. */
  predicate IsNextFree(s: State, id: nat) {
    && s.nextClientID <= id <= MAX_NODE_ID && id !in s.known && id !in s.clients
    && OccupiedBefore(s, id)
  }

  predicate OccupiedBefore(s: State, id: nat) {
    forall j: ID :: s.nextClientID <= j < id ==> j in s.known || j in s.clients
  }

  predicate Exhausted(s: State) {
    OccupiedBefore(s, MAX_NODE_ID + 1)
  }

  function Beyond(next: nat): nat {
    if next > MAX_NODE_ID + 1 then next else MAX_NODE_ID + 1
  }

  predicate ClientArrives(s: State, ch: Chan, id: Option<ID>, s': State) {
    if id.Some? then
      && IsNextFree(s, id.value)
      && Rebuilt(s.(clients := s.clients[id.value := Attached(Node([], None), ch)], nextClientID := id.value + 1), s')
    else
      Exhausted(s) && s' == s.(nextClientID := Beyond(s.nextClientID))
  }

  predicate ClientLeaves(s: State, id: ID, ch: Chan, s': State) {
    if id in s.clients && ch in s.clients[id].live then
      var n := Detached(s.clients[id], ch);
      if n.live == [] then Rebuilt(s.(clients := s.clients - {id}), s')
      else s' == s.(clients := s.clients[id := n])
    else
      s' == s
  }

  // ---- the manager ----

  class InboundManager {
    const myID: ID
    var known: map<ID, Node>
    var clients: map<ID, Node>
    var inboundPeers: seq<ID>
    var connectedClients: seq<ID>
    var nextClientID: nat
    var generation: nat

    function View(): State
      reads this
    {
      State(myID, known, clients, inboundPeers, connectedClients, nextClientID, generation)
    }

    constructor (myID: ID, peers: set<ID>)
      ensures Initial(View()) && this.myID == myID && known.Keys == peers
    {
      this.myID := myID;
      known := map id | id in peers :: Node([], None);
      clients, inboundPeers, connectedClients := map[], [], [];
      nextClientID, generation := CLIENT_ID_START, 0;
      new;
      RebuildConfig();
    }

    /** Collects the connected nodes in any order and sorts them. */
    method RebuildConfig()
      modifies this
      ensures Rebuilt(old(View()), View())
    {
      var inbound := Collect(known, Some(myID));
      var connected := Collect(clients, None);
      inboundPeers := inbound;
      connectedClients := connected;
      generation := generation + 1;
    }

    method RegisterPeer(id: ID, ch: Chan)
      requires id in known
      modifies this
      ensures PeerConnects(old(View()), id, ch, View())
    {
      known := known[id := Attached(known[id], ch)];
      RebuildConfig();
    }

    method PeerGone(id: ID, ch: Chan)
      requires id in known
      modifies this
      ensures PeerDisconnects(old(View()), id, ch, View())
    {
      var node := known[id];
      known := known[id := Detached(node, ch)];
      if ch in node.live && known[id].live == [] {
        RebuildConfig();
      }
    }

    /** Skips occupied IDs; the search never goes back. */
    method NextAvailableClientID() returns (id: Option<ID>)
      modifies this`nextClientID
      ensures id.Some? ==> IsNextFree(old(View()), id.value) && nextClientID == id.value + 1
      ensures id.None? ==> Exhausted(old(View())) && nextClientID == Beyond(old(nextClientID))
    {
      while nextClientID <= MAX_NODE_ID
        invariant old(nextClientID) <= nextClientID <= Beyond(old(nextClientID))
        invariant OccupiedBefore(old(View()), nextClientID)
        decreases Beyond(old(nextClientID)) - nextClientID
      {
        var next := nextClientID;
        nextClientID := nextClientID + 1;
        if next in known {
          continue;
        }
        if next in clients {
          continue;
        }
        return Some(next);
      }
      return None;
    }

    method AcceptClient(ch: Chan) returns (id: Option<ID>)
      modifies this
      ensures ClientArrives(old(View()), ch, id, View())
    {
      id := NextAvailableClientID();
      if id.Some? {
        clients := clients[id.value := Attached(Node([], None), ch)];
        RebuildConfig();
      }
    }

    method ClientGone(id: ID, ch: Chan)
      modifies this
      ensures ClientLeaves(old(View()), id, ch, View())
    {
      if id in clients && ch in clients[id].live {
        var node := Detached(clients[id], ch);
        if node.live == [] {
          clients := clients - {id};
          RebuildConfig();
        } else {
          clients := clients[id := node];
        }
      }
    }
  }

  /** The IDs of the connected nodes, sorted. */
  method Collect(nodes: map<ID, Node>, self: Option<ID>) returns (r: seq<ID>)
    ensures Lists(r, set id | id in nodes && (self == Some(id) || nodes[id].active.Some?))
  {
    var rest := nodes.Keys;
    r := [];
    while rest != {}
      invariant rest <= nodes.Keys
      invariant Elements(r) == set id | id in nodes && id !in rest && (self == Some(id) || nodes[id].active.Some?)
      invariant forall i, j :: 0 <= i < j < |r| ==> r[i] != r[j]
      decreases |rest|
    {
      var id :| id in rest;
      rest := rest - {id};
      if self == Some(id) || nodes[id].active.Some? {
        ElementsAppend(r, id);
        assert id !in Elements(r);
        r := r + [id];
      }
    }
    r := SortById(r);
  }

  predicate Initial(s: State) {
    && (forall id :: id in s.known ==> s.known[id] == Node([], None))
    && s.clients == map[] && s.nextClientID == CLIENT_ID_START && ViewsCurrent(s)
  }
}
