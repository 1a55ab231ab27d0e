/** Connection bookkeeping of the QUIC transport: the id allocator, the peer and CID indexes and the
    dual-stack ids (transports/quic/src/lib.rs:544-559, 708-869, 1046-1125). Packets are taken in only
    as far as they set a peer id or a source CID. */
module Quic {
  import opened Bytes
  import opened Ids

  // ------------------------------------------------------------------------ dual-stack ids

  datatype Family = Ipv4 | Ipv6

  function Saturated(v: int): u64 {
    if v < 0 then 0 else if v >= TWO_64 then TWO_64 - 1 else v
  }

  function ExternalId(family: Family, raw: u64): ConnId {
    match family
    case Ipv4 => Saturated(Saturated(raw * 2) - 1)
    case Ipv6 => Saturated(raw * 2)
  }

  function InternalId(id: ConnId): (Family, u64) {
    if id % 2 == 0 then (Ipv6, id / 2) else (Ipv4, (id + 1) / 2)
  }

  /** An id survives the way out and back exactly below 2^63, zero being lost for IPv4. */
  lemma OutAndBack(family: Family, raw: u64)
    ensures InternalId(ExternalId(family, raw)) == (family, raw)
            <==> raw < 0x8000_0000_0000_0000 && (family == Ipv4 ==> raw >= 1)
  {
  }

  /** Every external id but the largest survives the way in and back. */
  lemma InAndBack(id: ConnId)
    ensures ExternalId(InternalId(id).0, InternalId(id).1) == id <==> id != TWO_64 - 1
  {
  }

  // ----------------------------------------------------------------------------- indexes

  /** Live connections with the peer their endpoint names, if any, and the two indexes. */
  datatype Index = Index(
    connections: map<ConnId, Option<PeerId>>, peers: map<PeerId, set<ConnId>>, cids: map<Blob, ConnId>)

  const EMPTY: Index := Index(map[], map[], map[])

  function AddPeer(x: Index, peer: PeerId, id: ConnId): Index {
    x.(peers := x.peers[peer := (if peer in x.peers then x.peers[peer] else {}) + {id}])
  }

  function RemovePeer(x: Index, peer: PeerId, id: ConnId): Index {
    if peer !in x.peers then x
    else
      var ids := x.peers[peer] - {id};
      x.(peers := if ids == {} then x.peers - {peer} else x.peers[peer := ids])
  }

  function RemoveAny(x: Index, peer: Option<PeerId>, id: ConnId): Index {
    if peer.Some? then RemovePeer(x, peer.value, id) else x
  }

  function AddAny(x: Index, peer: Option<PeerId>, id: ConnId): Index {
    if peer.Some? then AddPeer(x, peer.value, id) else x
  }

  function AddCid(x: Index, cid: Blob, id: ConnId): Index {
    x.(cids := x.cids[cid := id])
  }

  function CidsWithout(cids: map<Blob, ConnId>, id: ConnId): map<Blob, ConnId> {
    map c | c in cids && cids[c] != id :: cids[c]
  }

  /** A connection enters under a free id, when dialled with a peer, when accepted without. */
  function Enter(x: Index, id: ConnId, peer: Option<PeerId>, cid: Blob): Index {
    AddAny(AddCid(x.(connections := x.connections[id := peer]), cid, id), peer, id)
  }

  /** A connection's endpoint now names another peer. */
  function Rename(x: Index, id: ConnId, peer: Option<PeerId>): Index
    requires id in x.connections
  {
    var was := x.connections[id];
    if was == peer then x
    else AddAny(RemoveAny(x.(connections := x.connections[id := peer]), was, id), peer, id)
  }

  function Leave(x: Index, id: ConnId): Index {
    if id !in x.connections then x
    else
      var gone := x.(connections := x.connections - {id}, cids := CidsWithout(x.cids, id));
      RemoveAny(gone, x.connections[id], id)
  }

  /** The peer index lists a connection exactly under the peer its endpoint names. */
  ghost predicate PeersAgree(x: Index) {
    && (forall p, id :: Lists(x, p, id) <==> Names(x, p, id))
    && (forall p :: p in x.peers ==> x.peers[p] != {})
  }

  predicate Lists(x: Index, p: PeerId, id: ConnId) {
    p in x.peers && id in x.peers[p]
  }

  predicate Names(x: Index, p: PeerId, id: ConnId) {
    id in x.connections && x.connections[id] == Some(p)
  }

  ghost predicate CidsLive(x: Index) {
    forall c :: c in x.cids ==> x.cids[c] in x.connections
  }

  ghost predicate Agrees(x: Index) {
    PeersAgree(x) && CidsLive(x)
  }

  lemma AddPeerLists(x: Index, peer: PeerId, id: ConnId)
    ensures forall p, i :: Lists(AddPeer(x, peer, id), p, i) <==> Lists(x, p, i) || (p == peer && i == id)
    ensures (forall p :: p in x.peers ==> x.peers[p] != {}) ==>
              forall p :: p in AddPeer(x, peer, id).peers ==> AddPeer(x, peer, id).peers[p] != {}
  {
    assert id in AddPeer(x, peer, id).peers[peer];
  }

  lemma RemovePeerLists(x: Index, peer: PeerId, id: ConnId)
    ensures forall p, i :: Lists(RemovePeer(x, peer, id), p, i) <==> Lists(x, p, i) && !(p == peer && i == id)
    ensures (forall p :: p in x.peers ==> x.peers[p] != {}) ==>
              forall p :: p in RemovePeer(x, peer, id).peers ==> RemovePeer(x, peer, id).peers[p] != {}
  {
    if peer in x.peers {
      var ids := x.peers[peer] - {id};
      assert forall i :: i in x.peers[peer] ==> i == id || i in ids;
    }
  }

  lemma EnterAgrees(x: Index, id: ConnId, peer: Option<PeerId>, cid: Blob)
    requires Agrees(x) && id !in x.connections
    ensures Agrees(Enter(x, id, peer, cid))
  {
    hide AddPeer, Lists;
    var y := AddCid(x.(connections := x.connections[id := peer]), cid, id);
    assert forall p, i :: Lists(y, p, i) <==> Lists(x, p, i) by { SamePeers(x, y); }
    if peer.Some? {
      AddPeerLists(y, peer.value, id);
      AddPeerKeeps(y, peer.value, id);
    }
  }

  lemma SamePeers(x: Index, y: Index)
    requires x.peers == y.peers
    ensures forall p, i :: Lists(y, p, i) <==> Lists(x, p, i)
  {
  }

  lemma AddPeerKeeps(x: Index, peer: PeerId, id: ConnId)
    ensures AddPeer(x, peer, id).connections == x.connections && AddPeer(x, peer, id).cids == x.cids
  {
  }

  lemma RemovePeerKeeps(x: Index, peer: PeerId, id: ConnId)
    ensures RemovePeer(x, peer, id).connections == x.connections && RemovePeer(x, peer, id).cids == x.cids
  {
  }

  lemma RenameAgrees(x: Index, id: ConnId, peer: Option<PeerId>)
    requires Agrees(x) && id in x.connections
    ensures Agrees(Rename(x, id, peer))
  {
    hide AddPeer, RemovePeer, Lists;
    var was := x.connections[id];
    if was != peer {
      var y := x.(connections := x.connections[id := peer]);
      SamePeers(x, y);
      if was.Some? {
        RemovePeerLists(y, was.value, id);
        RemovePeerKeeps(y, was.value, id);
      }
      var z := RemoveAny(y, was, id);
      if peer.Some? {
        AddPeerLists(z, peer.value, id);
        AddPeerKeeps(z, peer.value, id);
      }
      RenameLists(x, id, peer);
    }
  }

  lemma RenameLists(x: Index, id: ConnId, peer: Option<PeerId>)
    requires Agrees(x) && id in x.connections && x.connections[id] != peer
    ensures var r := Rename(x, id, peer);
            forall p, i :: Lists(r, p, i) <==> if i == id then peer == Some(p) else Lists(x, p, i)
  {
    hide AddPeer, RemovePeer, Lists;
    var was := x.connections[id];
    var y := x.(connections := x.connections[id := peer]);
    SamePeers(x, y);
    if was.Some? {
      RemovePeerLists(y, was.value, id);
    }
    if peer.Some? {
      AddPeerLists(RemoveAny(y, was, id), peer.value, id);
    }
    assert forall p :: Lists(x, p, id) <==> Names(x, p, id);
  }

  lemma LeaveAgrees(x: Index, id: ConnId)
    requires Agrees(x)
    ensures Agrees(Leave(x, id))
    ensures id !in Leave(x, id).connections && forall c :: c in Leave(x, id).cids ==> Leave(x, id).cids[c] != id
  {
    hide RemovePeer, Lists;
    if id in x.connections {
      var was := x.connections[id];
      var y := x.(connections := x.connections - {id}, cids := CidsWithout(x.cids, id));
      SamePeers(x, y);
      if was.Some? {
        RemovePeerLists(y, was.value, id);
        RemovePeerKeeps(y, was.value, id);
      }
      assert forall p :: Lists(x, p, id) <==> Names(x, p, id);
    }
  }

  // ---------------------------------------------------------------------------- allocator

  /** The raw values the allocator has looked at when it started at `start` and stands at `next`. */
  predicate Passed(start: ConnId, next: ConnId, wrapped: bool, raw: ConnId) {
    if wrapped then raw >= start || raw < next else start <= raw < next
  }

  // ---------------------------------------------------------------------------------- runs

  /** Everything that changes the bookkeeping: a dial or an incoming connection gets an allocated id,
      a packet or the host renames a connection's peer, source CIDs come and go, connections close. */
  datatype Op =
    | Connects(id: ConnId, peer: Option<PeerId>, cid: Blob)
    | Renames(id: ConnId, peer: Option<PeerId>)
    | TakesCid(id: ConnId, cid: Blob)
    | Closes(id: ConnId)

  /** Ids of new connections come from the allocator, so they are free. */
  function Step(x: Index, op: Op): Index {
    match op
    case Connects(id, peer, cid) => if id in x.connections then x else Enter(x, id, peer, cid)
    case Renames(id, peer) => if id in x.connections then Rename(x, id, peer) else x
    case TakesCid(id, cid) => if id in x.connections then AddCid(x, cid, id) else x
    case Closes(id) => Leave(x, id)
  }

  function Run(x: Index, ops: seq<Op>): Index
    decreases |ops|
  {
    if ops == [] then x else Run(Step(x, ops[0]), ops[1..])
  }

  lemma {:induction false} RunAgrees(x: Index, ops: seq<Op>)
    requires Agrees(x)
    ensures Agrees(Run(x, ops))
    decreases |ops|
  {
    hide Agrees, Enter, Rename, Leave;
    if ops != [] {
      match ops[0] {
        case Connects(id, peer, cid) =>
          if id !in x.connections {
            EnterAgrees(x, id, peer, cid);
          }
        case Renames(id, peer) =>
          if id in x.connections {
            RenameAgrees(x, id, peer);
          }
        case TakesCid(id, cid) => CidAgrees(x, id, cid);
        case Closes(id) => LeaveAgrees(x, id);
      }
      RunAgrees(Step(x, ops[0]), ops[1..]);
    }
  }

  lemma CidAgrees(x: Index, id: ConnId, cid: Blob)
    requires Agrees(x)
    ensures id in x.connections ==> Agrees(AddCid(x, cid, id))
  {
    hide Lists;
    SamePeers(x, AddCid(x, cid, id));
  }

  /** What one change does: a free id is taken by a new connection, under its first CID; a live
      connection changes its peer or takes another CID; and a connection that closes leaves with exactly
      the CIDs that led to it. Everything else stays as it was, and with `IndexAgreement` this settles the
      peer index, too. */
  lemma StepIs(x: Index, op: Op)
    ensures var y, live := Step(x, op), op.id in x.connections;
            && (op.Connects? && !live ==>
                  y.connections == x.connections[op.id := op.peer] && y.cids == x.cids[op.cid := op.id])
            && (op.Renames? && live ==> y.connections == x.connections[op.id := op.peer] && y.cids == x.cids)
            && (op.TakesCid? && live ==> y.connections == x.connections && y.cids == x.cids[op.cid := op.id])
            && (op.Closes? && live ==>
                  && y.connections == x.connections - {op.id}
                  && (forall c :: c in y.cids <==> c in x.cids && x.cids[c] != op.id)
                  && (forall c :: c in y.cids ==> y.cids[c] == x.cids[c]))
            && (if op.Connects? then live ==> y == x else !live ==> y == x)
  {
    hide AddPeer, RemovePeer;
    match op {
      case Connects(id, peer, cid) =>
        if peer.Some? {
          AddPeerKeeps(AddCid(x.(connections := x.connections[id := peer]), cid, id), peer.value, id);
        }
      case Renames(id, peer) =>
        if id in x.connections {
          RenameKeeps(x, id, peer);
        }
      case TakesCid(_, _) =>
      case Closes(id) =>
        if id in x.connections && x.connections[id].Some? {
          RemovePeerKeeps(x.(connections := x.connections - {id}, cids := CidsWithout(x.cids, id)),
                          x.connections[id].value, id);
        }
    }
  }

  lemma RenameKeeps(x: Index, id: ConnId, peer: Option<PeerId>)
    requires id in x.connections
    ensures Rename(x, id, peer).connections == x.connections[id := peer] && Rename(x, id, peer).cids == x.cids
  {
    hide AddPeer, RemovePeer;
    var was := x.connections[id];
    var y := x.(connections := x.connections[id := peer]);
    if was == peer {
      assert x.connections[id := peer] == x.connections;
    } else {
      if was.Some? {
        RemovePeerKeeps(y, was.value, id);
      }
      if peer.Some? {
        AddPeerKeeps(RemoveAny(y, was, id), peer.value, id);
      }
    }
  }

  /** Index agreement over every run: a connection is listed under a peer exactly when it is live and
      its endpoint names that peer, and CIDs lead to live connections only. */
  lemma IndexAgreement(ops: seq<Op>)
    ensures var x := Run(EMPTY, ops);
            && (forall p, id: ConnId :: (p in x.peers && id in x.peers[p])
                                <==> (id in x.connections && x.connections[id] == Some(p)))
            && (forall c :: c in x.cids ==> x.cids[c] in x.connections)
  {
    hide Run;
    assert Agrees(EMPTY);
    RunAgrees(EMPTY, ops);
    var x := Run(EMPTY, ops);
    forall p, id: ConnId
      ensures (p in x.peers && id in x.peers[p]) <==> (id in x.connections && x.connections[id] == Some(p))
    {
      assert Lists(x, p, id) <==> Names(x, p, id);
    }
  }

  // ---------------------------------------------------------------------- imperative form

  class QuicTransport {
    var connections: map<ConnId, Option<PeerId>>
    var peerConnections: map<PeerId, set<ConnId>>
    var cidToConnection: map<Blob, ConnId>
    var nextConnectionId: u64

    ghost function View(): Index
      reads this
    {
      Index(connections, peerConnections, cidToConnection)
    }

    constructor ()
      ensures View() == EMPTY && nextConnectionId == 1
    {
      connections, peerConnections, cidToConnection, nextConnectionId := map[], map[], map[], 1;
    }

    /** Yields a free non-zero id and fails only when there is none; the counter wraps around. */
    method AllocateConnectionId() returns (r: Option<ConnId>)
      modifies this`nextConnectionId
      ensures r.Some? ==> r.value != 0 && r.value !in connections
      ensures r.None? <==> forall id: ConnId :: id != 0 ==> id in connections
    {
      var start := nextConnectionId;
      var wrapped := false;
      while true
        invariant wrapped ==> nextConnectionId < start
        invariant !wrapped ==> start <= nextConnectionId
        invariant forall id: ConnId :: Passed(start, nextConnectionId, wrapped, id) && id != 0 ==> id in connections
        decreases if wrapped then start - nextConnectionId else TWO_64 - nextConnectionId + start
      {
        var raw := nextConnectionId;
        nextConnectionId := (nextConnectionId + 1) % TWO_64;
        if raw != 0 && raw !in connections {
          return Some(raw);
        }
        if raw == TWO_64 - 1 {
          wrapped := true;
        }
        if nextConnectionId == start {
          assert forall id: ConnId :: id != 0 ==> id in connections by {
            forall id: ConnId | id != 0
              ensures id in connections
            {
              assert id == raw || Passed(start, raw, raw < start, id);
            }
          }
          return None;
        }
      }
    }

    method IndexPeerConnection(peer: PeerId, id: ConnId)
      modifies this
      ensures View() == AddPeer(old(View()), peer, id) && nextConnectionId == old(nextConnectionId)
    {
      var ids := if peer in peerConnections then peerConnections[peer] else {};
      peerConnections := peerConnections[peer := ids + {id}];
    }

    method RemovePeerConnection(peer: PeerId, id: ConnId)
      modifies this
      ensures View() == RemovePeer(old(View()), peer, id) && nextConnectionId == old(nextConnectionId)
    {
      if peer in peerConnections {
        var ids := peerConnections[peer] - {id};
        if ids == {} {
          peerConnections := peerConnections - {peer};
        } else {
          peerConnections := peerConnections[peer := ids];
        }
      }
    }

    /** A dial or an incoming connection: it is entered under a fresh id. */
    method Admit(peer: Option<PeerId>, cid: Blob) returns (r: Option<ConnId>)
      modifies this
      ensures r.None? ==> View() == old(View())
      ensures r.Some? ==>
                r.value != 0 && r.value !in old(connections) && View() == Enter(old(View()), r.value, peer, cid)
    {
      r := AllocateConnectionId();
      if r.Some? {
        connections := connections[r.value := peer];
        cidToConnection := cidToConnection[cid := r.value];
        if peer.Some? {
          IndexPeerConnection(peer.value, r.value);
        }
      }
    }

    /** `verify_connection_peer_id`, and the identity update after a packet. */
    method SetPeer(id: ConnId, peer: Option<PeerId>)
      requires id in connections
      modifies this
      ensures View() == Rename(old(View()), id, peer)
    {
      var previous := connections[id];
      if previous == peer {
        return;
      }
      connections := connections[id := peer];
      if previous.Some? {
        RemovePeerConnection(previous.value, id);
      }
      if peer.Some? {
        IndexPeerConnection(peer.value, id);
      }
    }

    method Remove(id: ConnId)
      modifies this
      ensures View() == Leave(old(View()), id)
    {
      if id in connections {
        var peer := connections[id];
        connections := connections - {id};
        cidToConnection := CidsWithout(cidToConnection, id);
        if peer.Some? {
          RemovePeerConnection(peer.value, id);
        }
      }
    }
  }
}
