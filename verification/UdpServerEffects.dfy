/** What each call and each input leaves a UDP server as, field by field, with its return
    code. */
module UdpServerEffects {
  import opened Basics
  import opened RegistryModel
  import opened Sockets
  import opened EndpointModel
  import opened EndpointEffects
  import opened UdpServerModel

  // ---------------------------------------------------------------- sending

  /** The message goes to dest: queued for it in an engine, or handed to performSendTo. */
  ghost predicate Posted<E>(s: Server<E>, dest: HostAddr, m: Sending, s1: Server<E>, code: ReturnCode) {
    if m.data.None? || (m.Async? && s.out.engine.None?) then s1 == s && code == NOK
    else
      var o := Outgoing(dest, m.data.value);
      match m
      case Async(_) =>
        && code == OK
        && s1 == s.(out := s.out.(net := Queue(s.out.net.pending + [o], s.out.net.accepted + [o]),
                                  entry := Asked(s.out.entry, PollOut)))
      case Sync(_, sent) =>
        && code == (if s.out.handle.Some? && sent then OK else NOK)
        && s1 == s.(out := s.out.(attempts := s.out.attempts + [Datagram(o, false)]))
  }

  /** sendTo and syncSendTo of the server go where they are told; asyncSend and syncSend to
      whoever it heard last, and nowhere before that. */
  lemma ServerSendEffect<E>(s: Server<E>, dest: Option<HostAddr>, m: Sending)
    ensures var (s1, code) := Do(s, ServerSend(dest, m));
            match dest
            case Some(a) => Posted(s, a, m, s1, code)
            case None => if s.lastPeer.Some? then Posted(s, s.lastPeer.value, m, s1, code) else s1 == s && code == NOK
  {
  }

  /** The same four calls of a peer: while it is valid they go where they are told, or to
      its own address; then they are refused without effect. */
  lemma PeerSendEffect<E>(s: Server<E>, p: nat, dest: Option<HostAddr>, m: Sending)
    ensures var (s1, code) := Do(s, PeerSend(p, dest, m));
            if p < |s.peers| && s.peers[p].valid then
              Posted(s, if dest.Some? then dest.value else s.peers[p].addr, m, s1, code)
            else s1 == s && code == NOK
  {
  }

  // ------------------------------------------------ binding and disconnecting

  /** Every peer keeps its place, address and messages, and none is valid. */
  ghost predicate AllInvalid(peers: seq<PeerState>, peers1: seq<PeerState>) {
    && |peers1| == |peers|
    && forall i :: 0 <= i < |peers| ==> peers1[i] == PeerState(peers[i].addr, false, peers[i].delivered)
  }

  lemma ServerDisconnectEffect<E>(s: Server<E>)
    ensures var (s1, code) := Do(s, ServerDisconnect);
            && code == OK && Closed(s.out, s1.out, false) && AllInvalid(s.peers, s1.peers)
            && s1.lastPeer == s.lastPeer && s1.notify == s.notify
  {
  }

  /** bind answers OK exactly when some address is accepted; its socket is then the handle
      of a bound server, and else the server is left unbound.  Peers are invalid either
      way. */
  lemma ServerBindEffect<E>(s: Server<E>, lookup: Lookup)
    ensures var (s1, code) := Do(s, ServerBind(lookup));
            && (forall fd :: Wins(lookup, true, fd) ==> code == OK && Opened(s.out, fd, s1.out))
            && ((forall fd :: !Wins(lookup, true, fd)) ==> code == NOK && Closed(s.out, s1.out, false))
            && (code == OK <==> s1.out.session.connected)
            && AllInvalid(s.peers, s1.peers) && s1.lastPeer == s.lastPeer && s1.notify == s.notify
  {
    hide Wins, DoOpen, AcquiredFrom, Closed, Opened;
    var sock := AcquiredFrom(lookup, true);
    AcquiredFromIff(lookup, true);
    DoOpenEffect(s.out, sock);
    ConnectedAfter(s.out, sock);
  }

  lemma ConnectedAfter<E>(s: Endpoint<E>, sock: Option<int>)
    ensures DoOpen(s, sock).0.session.connected <==> sock.Some?
  {
  }

  // ------------------------------------------------------------------ inputs

  /** Only setNewPeerHandler changes whether a new-peer handler is installed. */
  lemma NotifyEffect<E>(s: Server<E>, op: Op)
    ensures Do(s, op).0.notify == if op.SetNewPeerHandler? then op.installed else s.notify
    ensures op.SetNewPeerHandler? ==> Do(s, op) == (s.(notify := op.installed), OK)
  {
  }

  /** A handler makes its calls one after the other. */
  lemma {:induction false} OpsEffect<E>(s: Server<E>, ops: seq<Op>, op: Op)
    ensures DoAll(s, []) == s && DoAll(s, ops + [op]) == Do(DoAll(s, ops), op).0
    decreases |ops|
  {
    hide Do;
    if ops == [] {
      assert DoAll(s, [op]) == DoAll(Do(s, op).0, []);
    } else {
      assert (ops + [op])[1..] == ops[1..] + [op];
      OpsEffect(Do(s, ops[0]).0, ops[1..], op);
    }
  }

  /** No peer has the address. */
  ghost predicate Unknown(peers: seq<PeerState>, a: HostAddr) {
    forall i :: 0 <= i < |peers| ==> peers[i].addr != a
  }

  /** Peer i is the first with the address. */
  ghost predicate FirstWith(peers: seq<PeerState>, a: HostAddr, i: nat) {
    i < |peers| && peers[i].addr == a && forall j :: 0 <= j < i ==> peers[j].addr != a
  }

  /** Reading a message: the network callback, on the server as it was; then its source is
      remembered; then the handler of the peer it came from, which has been given the
      message, or of a new peer, which joins the table at the end, or none. */
  lemma ReceiveEffect<E>(s: Server<E>, src: HostAddr, data: Payload, before: seq<Op>, after: seq<Op>)
    requires s.out.entry.Some?
    ensures var s1, last := DoAll(s, before), Serve(s, Receive(src, data, before, after));
            && (forall i: nat :: FirstWith(s1.peers, src, i) ==>
                  var p := s1.peers[i];
                  last == DoAll(s1.(lastPeer := Some(src),
                                    peers := s1.peers[i := PeerState(p.addr, p.valid, p.delivered + [data])]), after))
            && (Unknown(s1.peers, src) && !s1.notify ==> last == s1.(lastPeer := Some(src)))
            && (Unknown(s1.peers, src) && s1.notify ==>
                  var s3 := DoAll(s1.(lastPeer := Some(src)), after);
                  last == s3.(peers := s3.peers + [PeerState(src, true, [])]))
  {
    hide DoAll;
  }

  /** The other inputs: a call; a failed read, which does nothing; a write event, which is
      the inherited one.  Ready events reach only a polled device. */
  lemma InputEffect<E>(s: Server<E>, i: Input<E>)
    ensures i.Use? ==> Serve(s, i) == Do(s, i.op).0
    ensures i.ReceiveFails? || (!i.Use? && s.out.entry.None?) ==> Serve(s, i) == s
    ensures i.WriteReady? && s.out.entry.Some? ==> Serve(s, i) == s.(out := DoReadyWrite(s.out, i.outcome))
  {
    hide Do, DoReadyWrite;
  }

  /** Where a network callback answers the wrong address, the handlers that run after it
      answer the source of the message. */
  lemma HandlerEchoArrives<E>(s: Server<E>, src: HostAddr, data: Payload)
    requires s.out.entry.Some? && s.out.engine.Some?
    requires s.notify || exists i: nat :: FirstWith(s.peers, src, i)
    ensures Serve(s, Receive(src, data, [], [ServerSend(None, Async(Some(data)))])).out.net.pending ==
            s.out.net.pending + [Outgoing(src, data)]
  {
    var echo := ServerSend(None, Async(Some(data)));
    ReceiveEffect(s, src, data, [], [echo]);
    OpsEffect(s, [], echo);
    forall t: Server<E> ensures DoAll(t, [echo]) == Do(t, echo).0 {
      OpsEffect(t, [], echo);
      assert [] + [echo] == [echo];
    }
    if i: nat :| FirstWith(s.peers, src, i) {
      assert !Unknown(s.peers, src);
    } else {
      FirstOrUnknown(s.peers, src);
    }
  }

  lemma FirstOrUnknown(peers: seq<PeerState>, a: HostAddr)
    ensures Unknown(peers, a) || exists i: nat :: FirstWith(peers, a, i)
  {
    var i := FindPeer(peers, a);
    assert i < |peers| ==> FirstWith(peers, a, i);
  }
}
