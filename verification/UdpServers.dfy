/** The UDP server and its peers as objects, proved to change as UdpServerModel says. */
module UdpServers {
  import opened Basics
  import opened RegistryModel
  import opened RegistryLaws
  import opened Registry
  import opened Sockets
  import opened EndpointModel
  import opened NetworkDevices
  import opened UdpServerModel

  class Peer {
    const peerAddr: HostAddr
    var isValid: bool
    var canSend: bool
    ghost var delivered: seq<Payload>

    /** As readyRead builds it, with its send hooks set. */
    constructor (addr: HostAddr)
      ensures State() == PeerState(addr, true, []) && Agrees()
    {
      peerAddr, isValid, canSend, delivered := addr, true, true, [];
    }

    ghost function State(): PeerState
      reads this
    {
      PeerState(peerAddr, isValid, delivered)
    }

    /** The hooks are there exactly as long as the peer is valid. */
    ghost predicate Agrees()
      reads this
    {
      canSend == isValid
    }

    method Invalidate()
      modifies this
      ensures State() == old(State()).(valid := false) && Agrees()
    {
      canSend := false;
      isValid := false;
    }

    method NotifyNewData(data: Payload)
      modifies this
      ensures State() == old(State()).(delivered := old(delivered) + [data]) && canSend == old(canSend)
    {
      delivered := delivered + [data];
    }
  }

  ghost function States(peers: seq<Peer>): (r: seq<PeerState>)
    reads peers
    ensures |r| == |peers| && forall i :: 0 <= i < |r| ==> r[i] == peers[i].State()
  {
    seq(|peers|, i requires 0 <= i < |peers| reads peers => peers[i].State())
  }

  /** The position that find_if reports is the model's. */
  lemma FoundPeer(peers: seq<PeerState>, a: HostAddr, i: nat)
    requires i <= |peers| && forall j :: 0 <= j < i ==> peers[j].addr != a
    requires i < |peers| ==> peers[i].addr == a
    ensures FindPeer(peers, a) == i
  {
  }

  /** Noting a message changes the table and the last peer, as this says. */
  lemma NotedIs(s: UdpServerModel.Server<Engine>, s1: UdpServerModel.Server<Engine>, src: HostAddr, data: Payload)
    requires s1 == s.(peers := s1.peers, lastPeer := Some(src))
    requires var i := FindPeer(s.peers, src);
             s1.peers == if i < |s.peers| then s.peers[i := s.peers[i].(delivered := s.peers[i].delivered + [data])]
                         else s.peers
    ensures s1 == Noted(s, src, data)
  {
  }

  class Server {
    const net: NetworkDevice
    var peers: seq<Peer>
    var lastPeer: HostAddr
    var peerConnected: bool
    var newPeerNotify: bool

    constructor (net: NetworkDevice)
      ensures this.net == net && peers == [] && !peerConnected && !newPeerNotify
    {
      this.net := net;
      peers, lastPeer, peerConnected, newPeerNotify := [], HostAddr("", 0), false, false;
    }

    ghost predicate PeersOk()
      reads this`peers, peers
    {
      && (forall i, j :: 0 <= i < j < |peers| ==> peers[i] != peers[j])
      && forall i :: 0 <= i < |peers| ==> peers[i].Agrees()
    }

    ghost predicate Valid(u: Universe, fds: set<int>)
      reads this, net, peers, u.engines, u.devices
    {
      net.Valid(u, fds) && PeersOk()
    }

    ghost function State(u: Universe): UdpServerModel.Server<Engine>
      requires Known(u.View(), net.dev)
      reads this, net, peers, u.engines, u.devices
    {
      UdpServerModel.Server(net.State(u), States(peers), if peerConnected then Some(lastPeer) else None,
                            newPeerNotify)
    }

    /** Puts a new server under the observation of a universe. */
    ghost method Attach(u: Universe, fds: set<int>)
      requires u.Closed() && Sound(u.View(), net.dev, fds) && PeersOk()
      modifies net`origin, net`steps
      ensures Valid(u, fds) && State(u) == old(State(u))
    {
      net.Attach(u, fds);
    }

    method FindInPeers(a: HostAddr) returns (pos: nat)
      ensures pos == FindPeer(States(peers), a)
    {
      pos := 0;
      while pos < |peers| && peers[pos].peerAddr != a
        invariant pos <= |peers|
        invariant forall j :: 0 <= j < pos ==> States(peers)[j].addr != a
      {
        pos := pos + 1;
      }
      FoundPeer(States(peers), a, pos);
    }

    method InvalidatePeers()
      requires PeersOk()
      modifies peers
      ensures States(peers) == Invalidated(old(States(peers))) && PeersOk()
    {
      var i := 0;
      while i < |peers|
        invariant i <= |peers|
        invariant forall j :: 0 <= j < i ==>
                    peers[j].State() == old(peers[j].State()).(valid := false) && peers[j].Agrees()
        invariant forall j :: i <= j < |peers| ==> peers[j].State() == old(peers[j].State())
      {
        peers[i].Invalidate();
        i := i + 1;
      }
    }

    method Disconnect(ghost u: Universe, ghost fds: set<int>)
      requires Valid(u, fds)
      modifies net, peers, u.engines, net.dev
      ensures Valid(u, fds) && Moved(old(u.View()), u.View(), net.dev, fds)
      ensures State(u) == Unbound(old(State(u)))
    {
      hide PeersOk, Tracked, Coherent, OthersSame, Entry, Unshared, Known, Universe.View, Seen, Invalidated,
           DoDisconnect;
      net.Disconnect(u, fds);
      InvalidatePeers();
    }

    method Bind(lookup: Lookup, ghost u: Universe, ghost fds: set<int>) returns (code: ReturnCode)
      requires Valid(u, fds) && OpeningFits(EndpointModel.Bind(lookup), fds)
      modifies net, peers, u.engines, net.dev
      ensures Valid(u, fds) && Moved(old(u.View()), u.View(), net.dev, fds)
      ensures (State(u), code) == DoBind(old(State(u)), lookup)
    {
      hide PeersOk, Tracked, Coherent, OthersSame, Entry, Unshared, Known, Universe.View, Seen, Invalidated,
           TakeHandle, DoDisconnect, SocketOf;
      Disconnect(u, fds);
      ghost var mid := u.View();
      code := net.Reopen(EndpointModel.Bind(lookup), u, fds);
      MovedTransitive(old(u.View()), mid, u.View(), net.dev, fds);
    }

    /** sendTo or syncSendTo of the inherited device. */
    method SendOut(dest: HostAddr, m: Sending, ghost u: Universe, ghost fds: set<int>) returns (code: ReturnCode)
      requires Valid(u, fds)
      modifies net, u.engines
      ensures Valid(u, fds) && Moved(old(u.View()), u.View(), net.dev, fds)
      ensures (State(u), code) == DoSend(old(State(u)), Some(dest), m)
    {
      hide PeersOk, Tracked, Coherent, OthersSame, Entry, Unshared, Known, Universe.View, Seen;
      MovedSelf(u.View(), net.dev, fds);
      match m
      case Async(data) => code := net.SendTo(dest, data, u, fds);
      case Sync(data, sent) =>
        if data.None? {
          return NOK;
        }
        code := net.PerformSendTo(Outgoing(dest, data.value), false, sent, u, fds);
    }

    /** asyncSend and syncSend without a destination, sendTo and syncSendTo with one. */
    method Send(dest: Option<HostAddr>, m: Sending, ghost u: Universe, ghost fds: set<int>) returns (code: ReturnCode)
      requires Valid(u, fds)
      modifies net, u.engines
      ensures Valid(u, fds) && Moved(old(u.View()), u.View(), net.dev, fds)
      ensures (State(u), code) == Do(old(State(u)), ServerSend(dest, m))
    {
      hide PeersOk, Tracked, Coherent, OthersSame, Entry, Unshared, Known, Universe.View, Seen, EndpointModel.Perform;
      MovedSelf(u.View(), net.dev, fds);
      if dest.Some? {
        code := SendOut(dest.value, m, u, fds);
      } else if !peerConnected {
        return NOK;
      } else {
        code := SendOut(lastPeer, m, u, fds);
      }
    }

    /** The same four calls of a peer, through its hooks into this server. */
    method PeerSends(i: nat, dest: Option<HostAddr>, m: Sending, ghost u: Universe, ghost fds: set<int>)
      returns (code: ReturnCode)
      requires Valid(u, fds)
      modifies net, u.engines
      ensures Valid(u, fds) && Moved(old(u.View()), u.View(), net.dev, fds)
      ensures (State(u), code) == Do(old(State(u)), PeerSend(i, dest, m))
    {
      hide Tracked, Coherent, OthersSame, Entry, Unshared, Known, Universe.View, Seen, EndpointModel.Perform;
      MovedSelf(u.View(), net.dev, fds);
      if i >= |peers| {
        return NOK;
      }
      var peer := peers[i];
      assert States(peers)[i] == peer.State() && peer.Agrees();
      if !peer.canSend {
        return NOK;
      }
      if dest.Some? {
        code := SendOut(dest.value, m, u, fds);
      } else {
        code := SendOut(peer.peerAddr, m, u, fds);
      }
    }

    ghost predicate OpFits(op: Op, fds: set<int>) {
      op.ServerBind? ==> OpeningFits(EndpointModel.Bind(op.lookup), fds)
    }

    method Use(op: Op, ghost u: Universe, ghost fds: set<int>) returns (code: ReturnCode)
      requires Valid(u, fds) && OpFits(op, fds)
      modifies this`newPeerNotify, peers, net, u.engines, net.dev
      ensures Valid(u, fds) && Moved(old(u.View()), u.View(), net.dev, fds)
      ensures (State(u), code) == Do(old(State(u)), op)
    {
      hide PeersOk, Tracked, Coherent, OthersSame, Entry, Unshared, Known, Universe.View, Seen, EndpointModel.Perform,
           DoOpen, DoDisconnect, Invalidated;
      MovedSelf(u.View(), net.dev, fds);
      match op
      case SetNewPeerHandler(installed) =>
        newPeerNotify := installed;
        code := OK;
      case ServerDisconnect =>
        Disconnect(u, fds);
        code := OK;
      case ServerBind(lookup) => code := Bind(lookup, u, fds);
      case ServerSend(dest, m) => code := Send(dest, m, u, fds);
      case PeerSend(i, dest, m) => code := PeerSends(i, dest, m, u, fds);
    }

    /** The calls that a handler makes, one after the other. */
    method UseAll(ops: seq<Op>, ghost u: Universe, ghost fds: set<int>)
      requires Valid(u, fds) && forall op :: op in ops ==> OpFits(op, fds)
      modifies this`newPeerNotify, peers, net, u.engines, net.dev
      ensures Valid(u, fds) && Moved(old(u.View()), u.View(), net.dev, fds)
      ensures State(u) == DoAll(old(State(u)), ops)
      decreases |ops|
    {
      hide PeersOk, Tracked, Coherent, OthersSame, Entry, Unshared, Known, Universe.View, Seen, Do;
      MovedSelf(u.View(), net.dev, fds);
      if ops != [] {
        var _ := Use(ops[0], u, fds);
        ghost var mid := u.View();
        UseAll(ops[1..], u, fds);
        MovedTransitive(old(u.View()), mid, u.View(), net.dev, fds);
      }
    }

    /** The source of a message is remembered, and the message given to its peer. */
    method Note(src: HostAddr, data: Payload) returns (known: bool)
      requires PeersOk()
      modifies this`lastPeer, this`peerConnected, peers
      ensures PeersOk() && peerConnected && lastPeer == src
      ensures known <==> FindPeer(old(States(peers)), src) < |peers|
      ensures var was := old(States(peers));
              var pos := FindPeer(was, src);
              States(peers) == if known then was[pos := was[pos].(delivered := was[pos].delivered + [data])] else was
    {
      var pos := FindInPeers(src);
      lastPeer, peerConnected := src, true;
      known := pos < |peers|;
      if known {
        peers[pos].NotifyNewData(data);
      }
    }

    method Append(peer: Peer)
      requires PeersOk() && peer !in peers && peer.Agrees()
      modifies this`peers
      ensures PeersOk() && peers == old(peers) + [peer]
      ensures States(peers) == old(States(peers)) + [peer.State()]
    {
      peers := peers + [peer];
    }

    /** A new peer is built, handed to the handler, and then put into the table. */
    method Welcome(src: HostAddr, after: seq<Op>, ghost u: Universe, ghost fds: set<int>)
      requires Valid(u, fds) && forall op :: op in after ==> OpFits(op, fds)
      modifies this, peers, net, u.engines, net.dev
      ensures Valid(u, fds) && Moved(old(u.View()), u.View(), net.dev, fds)
      ensures var s := DoAll(old(State(u)), after);
              State(u) == s.(peers := s.peers + [PeerState(src, true, [])])
    {
      hide PeersOk, Tracked, Coherent, OthersSame, Entry, Unshared, Known, Universe.View, Seen, DoAll, OpFits,
           NetworkDevice.Valid, NetworkDevice.Own, Moved;
      var peer := new Peer(src);
      UseAll(after, u, fds);
      Append(peer);
    }

    /** readyRead, on a message that was read. */
    method ReadyRead(src: HostAddr, data: Payload, before: seq<Op>, after: seq<Op>, ghost u: Universe,
                     ghost fds: set<int>)
      requires Valid(u, fds) && forall op :: op in before || op in after ==> OpFits(op, fds)
      modifies this, peers, net, u.engines, net.dev
      ensures Valid(u, fds) && Moved(old(u.View()), u.View(), net.dev, fds)
      ensures State(u) == DoReceive(old(State(u)), src, data, before, after)
    {
      hide PeersOk, Tracked, Coherent, OthersSame, Entry, Unshared, Known, Universe.View, Seen, DoAll, Noted, OpFits;
      UseAll(before, u, fds);
      ghost var mid := u.View();
      ghost var heard := State(u);
      var known := Note(src, data);
      NotedIs(heard, State(u), src, data);
      if known {
        UseAll(after, u, fds);
      } else if newPeerNotify {
        Welcome(src, after, u, fds);
      } else {
        return;
      }
      MovedTransitive(old(u.View()), mid, u.View(), net.dev, fds);
    }
  }
}
