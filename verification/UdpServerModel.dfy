/** The UDP server as a value: its table of peers, and what inputs do to it and to the
    network device it sends through. */
module UdpServerModel {
  import opened Basics
  import opened RegistryModel
  import opened Sockets
  import opened EndpointModel
  import opened EndpointLaws
  import opened EndpointInterest
  import opened EndpointSession

  /** valid stands for mIsValid and for the send hooks, which are set and cleared with
      it; delivered logs what notifyNewData was given. */
  datatype PeerState = PeerState(addr: HostAddr, valid: bool, delivered: seq<Payload>)

  /** lastPeer is mLastPeer, once mPeerConnected is set; mBound is in the session of out. */
  datatype Server<E> = Server(out: Endpoint<E>, peers: seq<PeerState>, lastPeer: Option<HostAddr>, notify: bool)

  /** A new server that has been registered with engine e. */
  ghost function NewServer<E>(e: E): Server<E> {
    Server(NewEndpoint(Plain, e), [], None, false)
  }

  datatype Sending = Async(data: Option<Payload>) | Sync(data: Option<Payload>, sent: bool)

  /** What user code can call, inside a handler or outside.  A send without a destination
      is asyncSend or syncSend: of the server to whoever it heard last, of a peer to its
      own address; with one it is sendTo or syncSendTo. */
  datatype Op =
    | SetNewPeerHandler(installed: bool)
    | ServerDisconnect
    | ServerBind(lookup: Lookup)
    | ServerSend(dest: Option<HostAddr>, message: Sending)
    | PeerSend(peer: nat, dest: Option<HostAddr>, message: Sending)

  /** What can happen to a server.  On a message the network callback runs first, here
      `before`; then the handler of a new peer, or of the peer it came from, `after`. */
  datatype Input<E> =
    | Use(op: Op)
    | Receive(src: HostAddr, data: Payload, before: seq<Op>, after: seq<Op>)
    | ReceiveFails
    | WriteReady(outcome: SendOutcome<E>)

  /** find_if over mPeers: the first peer with this address, or |peers|. */
  ghost function FindPeer(peers: seq<PeerState>, a: HostAddr): (i: nat)
    ensures i <= |peers|
    ensures i < |peers| ==> peers[i].addr == a
    ensures forall j :: 0 <= j < i ==> peers[j].addr != a
  {
    if |peers| == 0 || peers[0].addr == a then 0 else 1 + FindPeer(peers[1..], a)
  }

  ghost function Invalidated(peers: seq<PeerState>): (r: seq<PeerState>)
    ensures |r| == |peers|
    ensures forall i :: 0 <= i < |r| ==> r[i] == peers[i].(valid := false)
  {
    seq(|peers|, i requires 0 <= i < |peers| => peers[i].(valid := false))
  }

  /** Server::disconnect. */
  ghost function Unbound<E>(s: Server<E>): Server<E> {
    s.(out := DoDisconnect(s.out), peers := Invalidated(s.peers))
  }

  /** Server::bind. */
  ghost function DoBind<E>(s: Server<E>, lookup: Lookup): (Server<E>, ReturnCode) {
    var (out, code) := DoOpen(s.out, SocketOf(Bind(lookup)));
    (Unbound(s).(out := out), code)
  }

  function SendCall<E>(dest: HostAddr, m: Sending): Call<E> {
    match m
    case Async(data) => SendTo(dest, data)
    case Sync(data, sent) => SyncSendTo(dest, data, sent)
  }

  function Or<T>(o: Option<T>, other: Option<T>): Option<T> {
    if o.Some? then o else other
  }

  /** The destination of a send: none before the server has heard anybody, and none
      through a peer that is not valid. */
  ghost function Target<E>(s: Server<E>, op: Op): Option<HostAddr>
    requires op.ServerSend? || op.PeerSend?
  {
    if op.ServerSend? then Or(op.dest, s.lastPeer)
    else if op.peer < |s.peers| && s.peers[op.peer].valid then Or(op.dest, Some(s.peers[op.peer].addr))
    else None
  }

  ghost function DoSend<E>(s: Server<E>, target: Option<HostAddr>, m: Sending): (Server<E>, ReturnCode) {
    if target.None? then (s, NOK)
    else
      var (out, code) := Perform(s.out, SendCall(target.value, m));
      (s.(out := out), code)
  }

  ghost function Do<E>(s: Server<E>, op: Op): (Server<E>, ReturnCode) {
    match op
    case SetNewPeerHandler(installed) => (s.(notify := installed), OK)
    case ServerDisconnect => (Unbound(s), OK)
    case ServerBind(lookup) => DoBind(s, lookup)
    case ServerSend(_, m) => DoSend(s, Target(s, op), m)
    case PeerSend(_, _, m) => DoSend(s, Target(s, op), m)
  }

  ghost function DoAll<E>(s: Server<E>, ops: seq<Op>): Server<E>
    decreases |ops|
  {
    if ops == [] then s else DoAll(Do(s, ops[0]).0, ops[1..])
  }

  /** Somebody is told of the message: the peer it came from, or the new-peer handler.
      The state is the one after the network callback. */
  ghost predicate Told<E>(s: Server<E>, src: HostAddr) {
    FindPeer(s.peers, src) < |s.peers| || s.notify
  }

  /** The state in which that handler runs. */
  ghost function Noted<E>(s: Server<E>, src: HostAddr, data: Payload): Server<E> {
    var i := FindPeer(s.peers, src);
    var s1 := s.(lastPeer := Some(src));
    if i < |s.peers| then s1.(peers := s.peers[i := s.peers[i].(delivered := s.peers[i].delivered + [data])])
    else s1
  }

  /** Server::readyRead, from the network callback on.  A new peer joins the table only
      when its handler has returned. */
  ghost function DoReceive<E>(s: Server<E>, src: HostAddr, data: Payload, before: seq<Op>, after: seq<Op>): Server<E> {
    var s1 := DoAll(s, before);
    var s2 := Noted(s1, src, data);
    if FindPeer(s1.peers, src) < |s1.peers| then DoAll(s2, after)
    else if !s1.notify then s2
    else
      var s3 := DoAll(s2, after);
      s3.(peers := s3.peers + [PeerState(src, true, [])])
  }

  /** A ready event reaches only a device that has a poll entry. */
  ghost function Serve<E>(s: Server<E>, i: Input<E>): Server<E> {
    match i
    case Use(op) => Do(s, op).0
    case Receive(src, data, before, after) =>
      if s.out.entry.Some? then DoReceive(s, src, data, before, after) else s
    case ReceiveFails => s
    case WriteReady(out) => if s.out.entry.Some? then s.(out := DoReadyWrite(s.out, out)) else s
  }

  ghost function ServeAll<E>(s: Server<E>, ins: seq<Input<E>>, n: nat): Server<E>
    requires n <= |ins|
  {
    if n == 0 then s else Serve(ServeAll(s, ins, n - 1), ins[n - 1])
  }

  // ----------------------------------------------- what calls do to the table

  ghost predicate Revokes(op: Op) {
    op.ServerDisconnect? || op.ServerBind?
  }

  ghost predicate AnyRevokes(ops: seq<Op>) {
    exists k :: 0 <= k < |ops| && Revokes(ops[k])
  }

  lemma AnyRevokesStep(ops: seq<Op>)
    requires ops != []
    ensures AnyRevokes(ops) <==> Revokes(ops[0]) || AnyRevokes(ops[1..])
  {
    if AnyRevokes(ops) && !Revokes(ops[0]) {
      var k :| 0 <= k < |ops| && Revokes(ops[k]);
      assert Revokes(ops[1..][k - 1]);
    }
    if AnyRevokes(ops[1..]) {
      var k :| 0 <= k < |ops| - 1 && Revokes(ops[1..][k]);
      assert Revokes(ops[k + 1]);
    }
  }

  ghost function InvalidatedIf(revoked: bool, peers: seq<PeerState>): seq<PeerState> {
    if revoked then Invalidated(peers) else peers
  }

  /** Calls never add, remove or readdress a peer, and never change whom the server heard
      last. */
  lemma {:induction false} DoAllTable<E>(s: Server<E>, ops: seq<Op>)
    ensures DoAll(s, ops).peers == InvalidatedIf(AnyRevokes(ops), s.peers)
    ensures DoAll(s, ops).lastPeer == s.lastPeer
    decreases |ops|
  {
    if ops != [] {
      hide AnyRevokes, Perform, DoOpen, DoDisconnect;
      AnyRevokesStep(ops);
      DoAllTable(Do(s, ops[0]).0, ops[1..]);
      assert Invalidated(Invalidated(s.peers)) == Invalidated(s.peers);
    }
  }

  // ----------------------------------------------------------------- routing

  /** Input k is a message from a that is read while a new-peer handler is installed,
      which the network callback may have done. */
  ghost predicate Introduces<E>(s: Server<E>, ins: seq<Input<E>>, k: nat, a: HostAddr)
    requires k < |ins|
  {
    Reads(s, ins, k, a) && DoAll(ServeAll(s, ins, k), ins[k].before).notify
  }

  /** Input k is a message from a that is read. */
  ghost predicate Reads<E>(s: Server<E>, ins: seq<Input<E>>, k: nat, a: HostAddr)
    requires k < |ins|
  {
    ins[k].Receive? && ins[k].src == a && ServeAll(s, ins, k).out.entry.Some?
  }

  /** Address a was introduced by one of the first n inputs. */
  ghost predicate Introduced<E>(s: Server<E>, ins: seq<Input<E>>, n: nat, a: HostAddr)
    requires n <= |ins|
  {
    exists k: nat :: k < n && Introduces(s, ins, k, a)
  }

  /** The addresses introduced by the first n inputs, each at its first time. */
  ghost function FirstSources<E>(s: Server<E>, ins: seq<Input<E>>, n: nat): seq<HostAddr>
    requires n <= |ins|
  {
    if n == 0 then []
    else
      var i := ins[n - 1];
      FirstSources(s, ins, n - 1)
      + (if i.Receive? && Introduces(s, ins, n - 1, i.src) && !Introduced(s, ins, n - 1, i.src) then [i.src] else [])
  }

  /** The messages from a among the first n inputs that were read after its introduction. */
  ghost function Heard<E>(s: Server<E>, ins: seq<Input<E>>, n: nat, a: HostAddr): seq<Payload>
    requires n <= |ins|
  {
    if n == 0 then []
    else
      var i := ins[n - 1];
      Heard(s, ins, n - 1, a)
      + (if i.Receive? && Reads(s, ins, n - 1, a) && Introduced(s, ins, n - 1, a) then [i.data] else [])
  }

  ghost function Addresses(peers: seq<PeerState>): (r: seq<HostAddr>)
    ensures |r| == |peers| && forall i :: 0 <= i < |r| ==> r[i] == peers[i].addr
  {
    seq(|peers|, i requires 0 <= i < |peers| => peers[i].addr)
  }

  lemma IntroducedStep<E>(s: Server<E>, ins: seq<Input<E>>, n: nat, a: HostAddr)
    requires 0 < n <= |ins|
    ensures Introduced(s, ins, n, a) <==> Introduced(s, ins, n - 1, a) || Introduces(s, ins, n - 1, a)
  {
  }

  lemma HeardNothing<E>(s: Server<E>, ins: seq<Input<E>>, n: nat, a: HostAddr)
    requires n <= |ins| && !Introduced(s, ins, n, a)
    ensures Heard(s, ins, n, a) == []
  {
  }

  /** Address and log of every peer, without its validity. */
  ghost predicate SameRoutes(peers: seq<PeerState>, peers1: seq<PeerState>) {
    && |peers1| == |peers|
    && forall i :: 0 <= i < |peers| ==> peers1[i].addr == peers[i].addr && peers1[i].delivered == peers[i].delivered
  }

  /** The table after a message: a new peer at the end when its source is unknown and
      somebody wants to know; else a delivery to the peer it came from. */
  ghost function Routed(peers: seq<PeerState>, notify: bool, src: HostAddr, data: Payload): seq<PeerState> {
    var i := FindPeer(peers, src);
    if i == |peers| then
      if notify then peers + [PeerState(src, true, [])] else peers
    else peers[i := peers[i].(delivered := peers[i].delivered + [data])]
  }

  lemma SamePlace(peers: seq<PeerState>, peers1: seq<PeerState>, a: HostAddr)
    requires SameRoutes(peers, peers1)
    ensures FindPeer(peers1, a) == FindPeer(peers, a)
  {
  }

  lemma DoAllRoutes<E>(s: Server<E>, ops: seq<Op>)
    ensures SameRoutes(s.peers, DoAll(s, ops).peers)
  {
    DoAllTable(s, ops);
  }

  /** Routing does not look at validity, and what comes after it does not undo it. */
  lemma RoutedSame(peers: seq<PeerState>, peers1: seq<PeerState>, notify: bool, src: HostAddr, data: Payload)
    requires SameRoutes(peers, peers1)
    ensures SameRoutes(Routed(peers, notify, src, data), Routed(peers1, notify, src, data))
  {
    SamePlace(peers, peers1, src);
  }

  lemma NotedRouted<E>(s: Server<E>, src: HostAddr, data: Payload, peers: seq<PeerState>)
    requires SameRoutes(Noted(s, src, data).peers, peers)
    ensures SameRoutes(Routed(s.peers, s.notify, src, data),
                       if FindPeer(s.peers, src) == |s.peers| && s.notify then peers + [PeerState(src, true, [])]
                       else peers)
  {
  }

  /** Whatever its handlers call, a message that is read is routed as that says. */
  lemma ReceiveRoutes<E>(s: Server<E>, src: HostAddr, data: Payload, before: seq<Op>, after: seq<Op>)
    ensures var notify := DoAll(s, before).notify;
            SameRoutes(Routed(s.peers, notify, src, data), DoReceive(s, src, data, before, after).peers)
  {
    hide DoAll, Routed, Noted;
    var s1 := DoAll(s, before);
    var s2 := Noted(s1, src, data);
    DoAllRoutes(s, before);
    DoAllRoutes(s2, after);
    RoutedSame(s.peers, s1.peers, s1.notify, src, data);
    NotedRouted(s1, src, data, if Told(s1, src) then DoAll(s2, after).peers else s2.peers);
  }

  /** What the table says, in terms of which inputs were read, and with which handler. */
  ghost predicate RoutedRight<E>(s: Server<E>, ins: seq<Input<E>>, n: nat)
    requires n <= |ins|
  {
    var peers := ServeAll(s, ins, n).peers;
    && Addresses(peers) == FirstSources(s, ins, n)
    && Distinct(Addresses(peers))
    && (forall a :: a in Addresses(peers) <==> Introduced(s, ins, n, a))
    && (forall i :: 0 <= i < |peers| ==> peers[i].delivered == Heard(s, ins, n, peers[i].addr))
  }

  lemma FindPeerIff(peers: seq<PeerState>, a: HostAddr)
    ensures FindPeer(peers, a) < |peers| <==> a in Addresses(peers)
  {
  }

  /** The table after input n - 1, which is read, against the one before it. */
  lemma MessageTable<E>(s: Server<E>, ins: seq<Input<E>>, n: nat)
    requires 0 < n <= |ins| && ins[n - 1].Receive? && ServeAll(s, ins, n - 1).out.entry.Some?
    ensures var i, peers := ins[n - 1], ServeAll(s, ins, n - 1).peers;
            SameRoutes(Routed(peers, Introduces(s, ins, n - 1, i.src), i.src, i.data), ServeAll(s, ins, n).peers)
    ensures forall a :: Introduced(s, ins, n, a) <==>
                        Introduced(s, ins, n - 1, a) || (a == ins[n - 1].src && Introduces(s, ins, n - 1, a))
  {
    hide DoReceive, DoAll, Routed, Introduced;
    var at, i := ServeAll(s, ins, n - 1), ins[n - 1];
    ReceiveRoutes(at, i.src, i.data, i.before, i.after);
    forall a ensures Introduced(s, ins, n, a) <==> Introduced(s, ins, n - 1, a) || Introduces(s, ins, n - 1, a) {
      IntroducedStep(s, ins, n, a);
    }
  }

  lemma HeardStep<E>(s: Server<E>, ins: seq<Input<E>>, n: nat, a: HostAddr)
    requires 0 < n <= |ins| && ins[n - 1].Receive? && ServeAll(s, ins, n - 1).out.entry.Some?
    ensures Heard(s, ins, n, a) ==
            Heard(s, ins, n - 1, a)
            + if a == ins[n - 1].src && Introduced(s, ins, n - 1, a) then [ins[n - 1].data] else []
  {
  }

  /** A message from a known address. */
  lemma KnownRoutes<E>(s: Server<E>, ins: seq<Input<E>>, n: nat)
    requires 0 < n <= |ins| && ins[n - 1].Receive? && ServeAll(s, ins, n - 1).out.entry.Some?
    requires RoutedRight(s, ins, n - 1) && ins[n - 1].src in Addresses(ServeAll(s, ins, n - 1).peers)
    ensures RoutedRight(s, ins, n)
  {
    hide ServeAll, Introduced, Introduces, Heard;
    var i := ins[n - 1];
    var peers, peers1 := ServeAll(s, ins, n - 1).peers, ServeAll(s, ins, n).peers;
    MessageTable(s, ins, n);
    FindPeerIff(peers, i.src);
    var p := FindPeer(peers, i.src);
    assert Addresses(peers1) == Addresses(peers);
    assert FirstSources(s, ins, n) == FirstSources(s, ins, n - 1);
    forall k | 0 <= k < |peers1| ensures peers1[k].delivered == Heard(s, ins, n, peers1[k].addr) {
      assert Addresses(peers)[k] == peers1[k].addr;
      assert k != p ==> Addresses(peers)[k] != Addresses(peers)[p];
      HeardStep(s, ins, n, peers1[k].addr);
    }
  }

  /** A message from an address that no peer has. */
  lemma NewRoutes<E>(s: Server<E>, ins: seq<Input<E>>, n: nat)
    requires 0 < n <= |ins| && ins[n - 1].Receive? && ServeAll(s, ins, n - 1).out.entry.Some?
    requires RoutedRight(s, ins, n - 1) && ins[n - 1].src !in Addresses(ServeAll(s, ins, n - 1).peers)
    ensures RoutedRight(s, ins, n)
  {
    hide ServeAll, Introduced, Introduces, Heard;
    var i := ins[n - 1];
    var peers, peers1 := ServeAll(s, ins, n - 1).peers, ServeAll(s, ins, n).peers;
    var added := if Introduces(s, ins, n - 1, i.src) then [i.src] else [];
    MessageTable(s, ins, n);
    FindPeerIff(peers, i.src);
    assert Addresses(peers1) == Addresses(peers) + added;
    assert FirstSources(s, ins, n) == FirstSources(s, ins, n - 1) + added;
    HeardNothing(s, ins, n - 1, i.src);
    forall k | 0 <= k < |peers1| ensures peers1[k].delivered == Heard(s, ins, n, peers1[k].addr) {
      HeardStep(s, ins, n, peers1[k].addr);
      assert k < |peers| ==> Addresses(peers)[k] == peers1[k].addr;
    }
  }

  /** What is not read from the network is not routed. */
  lemma OtherRoutes<E>(s: Server<E>, i: Input<E>)
    requires i.Receive? ==> s.out.entry.None?
    ensures SameRoutes(s.peers, Serve(s, i).peers)
  {
    hide Perform, DoReadyWrite;
  }

  lemma OtherKeepsRoutes<E>(s: Server<E>, ins: seq<Input<E>>, n: nat)
    requires 0 < n <= |ins| && RoutedRight(s, ins, n - 1)
    requires ins[n - 1].Receive? ==> ServeAll(s, ins, n - 1).out.entry.None?
    ensures RoutedRight(s, ins, n)
  {
    hide Serve;
    var peers, peers1 := ServeAll(s, ins, n - 1).peers, ServeAll(s, ins, n).peers;
    OtherRoutes(ServeAll(s, ins, n - 1), ins[n - 1]);
    forall a ensures Introduced(s, ins, n, a) <==> Introduced(s, ins, n - 1, a) {
      IntroducedStep(s, ins, n, a);
    }
    assert Addresses(peers1) == Addresses(peers);
  }

  /** Over every run from an empty table, with handlers that send, bind and disconnect,
      the peers are the sources of the messages read with a new-peer handler installed,
      each once, in order of first appearance; and each peer was given exactly the
      messages its address sent after the one that introduced it, in order. */
  lemma {:induction false} RoutingRefines<E>(s: Server<E>, ins: seq<Input<E>>, n: nat)
    requires s.peers == [] && n <= |ins|
    ensures RoutedRight(s, ins, n)
  {
    if n == 0 {
      assert Addresses([]) == [];
    } else {
      RoutingRefines(s, ins, n - 1);
      if ins[n - 1].Receive? && ServeAll(s, ins, n - 1).out.entry.Some? {
        if ins[n - 1].src in Addresses(ServeAll(s, ins, n - 1).peers) {
          KnownRoutes(s, ins, n);
        } else {
          NewRoutes(s, ins, n);
        }
      } else {
        OtherKeepsRoutes(s, ins, n);
      }
    }
  }

  // ----------------------------------------------------------- peer validity

  /** The server is disconnected or bound by the input, or by a handler that runs in it. */
  ghost predicate InputRevokes<E>(s: Server<E>, i: Input<E>) {
    match i
    case Use(op) => Revokes(op)
    case Receive(src, _, before, after) =>
      s.out.entry.Some? && (AnyRevokes(before) || (Told(DoAll(s, before), src) && AnyRevokes(after)))
    case _ => false
  }

  ghost predicate RevokedBetween<E>(s: Server<E>, ins: seq<Input<E>>, m: nat, n: nat)
    requires m <= n <= |ins|
  {
    exists k: nat :: m <= k < n && InputRevokes(ServeAll(s, ins, k), ins[k])
  }

  lemma ServePeer<E>(s: Server<E>, i: Input<E>, p: nat)
    requires p < |s.peers|
    ensures var peers1 := Serve(s, i).peers;
            && p < |peers1| && peers1[p].addr == s.peers[p].addr
            && (peers1[p].valid <==> s.peers[p].valid && !InputRevokes(s, i))
  {
    hide DoAll, AnyRevokes;
    if i.Receive? {
      DoAllTable(s, i.before);
      DoAllTable(Noted(DoAll(s, i.before), i.src, i.data), i.after);
    }
  }

  lemma RevokedStep<E>(s: Server<E>, ins: seq<Input<E>>, m: nat, n: nat)
    requires m < n <= |ins|
    ensures RevokedBetween(s, ins, m, n) <==>
            RevokedBetween(s, ins, m, n - 1) || InputRevokes(ServeAll(s, ins, n - 1), ins[n - 1])
  {
    hide InputRevokes, ServeAll;
  }

  lemma NothingRevoked<E>(s: Server<E>, ins: seq<Input<E>>, m: nat)
    requires m <= |ins|
    ensures !RevokedBetween(s, ins, m, m)
  {
  }

  /** A peer that is there after m inputs stays at its place, and is valid after n
      inputs exactly when it was valid after m and the server has not been
      disconnected or bound in between, by a handler or otherwise. */
  lemma {:induction false} PeerValidIff<E>(s: Server<E>, ins: seq<Input<E>>, m: nat, n: nat, p: nat)
    requires m <= n <= |ins| && p < |ServeAll(s, ins, m).peers|
    ensures var peers, peers1 := ServeAll(s, ins, m).peers, ServeAll(s, ins, n).peers;
            && p < |peers1| && peers1[p].addr == peers[p].addr
            && (peers1[p].valid <==> peers[p].valid && !RevokedBetween(s, ins, m, n))
  {
    hide Serve, RevokedBetween, InputRevokes;
    if m < n {
      PeerValidIff(s, ins, m, n - 1, p);
      ServePeer(ServeAll(s, ins, n - 1), ins[n - 1], p);
      RevokedStep(s, ins, m, n);
    } else {
      NothingRevoked(s, ins, m);
    }
  }

  /** A peer is valid when it joins the table, also when its own handler has just
      disconnected the server, since it joins after that. */
  lemma NewPeerValid<E>(s: Server<E>, i: Input<E>)
    requires |Serve(s, i).peers| > |s.peers|
    ensures i.Receive? && |Serve(s, i).peers| == |s.peers| + 1
    ensures Serve(s, i).peers[|s.peers|] == PeerState(i.src, true, [])
  {
    if i.Receive? {
      hide DoAll, AnyRevokes;
      DoAllTable(s, i.before);
      DoAllTable(Noted(DoAll(s, i.before), i.src, i.data), i.after);
    }
  }

  /** So a peer may be valid while its server is unbound: one whose own handler, told of
      it, disconnects the server. */
  lemma ValidPeerOfUnboundServer<E>(s: Server<E>, src: HostAddr, data: Payload)
    requires s.out.entry.Some? && s.notify && FindPeer(s.peers, src) == |s.peers|
    ensures var s1 := Serve(s, Receive(src, data, [], [ServerDisconnect]));
            && s1.peers == Invalidated(s.peers) + [PeerState(src, true, [])]
            && !s1.out.session.connected
  {
    var s2, ops := Noted(s, src, data), [ServerDisconnect];
    assert DoAll(s2, ops) == DoAll(Unbound(s2), ops[1..]) == Unbound(s2);
  }

  /** An address that comes back after a disconnect or a bind is still routed to its
      old peer, which cannot answer, and nobody is told of a new one. */
  lemma ReturningPeerIsMute<E>(s: Server<E>, p: nat, data: Payload, m: Sending, dest: Option<HostAddr>)
    requires p < |s.peers| && Distinct(Addresses(s.peers)) && !s.peers[p].valid && s.out.entry.Some?
    ensures var s1 := Serve(s, Receive(s.peers[p].addr, data, [], []));
            && s1.peers == s.peers[p := s.peers[p].(delivered := s.peers[p].delivered + [data])]
            && Do(s1, PeerSend(p, dest, m)) == (s1, NOK)
  {
  }

  // ------------------------------------------------ whom the server answers

  /** The source of the last message read among the first n inputs, if there was one. */
  ghost function LastSource<E>(s: Server<E>, ins: seq<Input<E>>, n: nat): Option<HostAddr>
    requires n <= |ins|
  {
    if n == 0 then None
    else if ins[n - 1].Receive? && ServeAll(s, ins, n - 1).out.entry.Some? then Some(ins[n - 1].src)
    else LastSource(s, ins, n - 1)
  }

  lemma ServeLastPeer<E>(s: Server<E>, i: Input<E>)
    ensures Serve(s, i).lastPeer == if i.Receive? && s.out.entry.Some? then Some(i.src) else s.lastPeer
  {
    if i.Receive? {
      hide DoAll, AnyRevokes;
      DoAllTable(s, i.before);
      DoAllTable(Noted(DoAll(s, i.before), i.src, i.data), i.after);
    }
  }

  lemma {:induction false} LastPeerIsLastSource<E>(s: Server<E>, ins: seq<Input<E>>, n: nat)
    requires n <= |ins| && s.lastPeer == None
    ensures ServeAll(s, ins, n).lastPeer == LastSource(s, ins, n)
  {
    hide Serve;
    if n > 0 {
      LastPeerIsLastSource(s, ins, n - 1);
      ServeLastPeer(ServeAll(s, ins, n - 1), ins[n - 1]);
    }
  }

  /** What asyncSend or syncSend of the server does when it answers `to`: an asynchronous
      one is queued for that destination, a synchronous one handed to performSendTo. */
  ghost predicate Answers<E>(s: Server<E>, m: Sending, to: Option<HostAddr>) {
    Do(s, ServerSend(None, m)) ==
    if to.None? || m.data.None? || (m.Async? && s.out.engine.None?) then (s, NOK)
    else
      var o := Outgoing(to.value, m.data.value);
      match m
      case Async(_) => (s.(out := SetEntry(s.out.(net := s.out.net.Push(o)), PollOut)), OK)
      case Sync(_, sent) =>
        (s.(out := Logged(s.out, Datagram(o, false))), if s.out.handle.Some? && sent then OK else NOK)
  }

  lemma AnswersLastPeer<E>(s: Server<E>, m: Sending)
    ensures Answers(s, m, s.lastPeer)
  {
  }

  /** Between inputs the server's own sends go to whoever it heard last, also after
      disconnecting and binding again, and are refused before it has heard anybody. */
  lemma SendsToLastSource<E>(s: Server<E>, ins: seq<Input<E>>, n: nat, m: Sending)
    requires n <= |ins| && s.lastPeer == None
    ensures Answers(ServeAll(s, ins, n), m, LastSource(s, ins, n))
  {
    LastPeerIsLastSource(s, ins, n);
    AnswersLastPeer(ServeAll(s, ins, n), m);
  }

  /** The state of call k of the network callback. */
  ghost function InCallback<E>(s: Server<E>, i: Input<E>, k: nat): Server<E>
    requires i.Receive? && k <= |i.before|
  {
    DoAll(s, i.before[..k])
  }

  /** The state of call k of the handler that is told of the message. */
  ghost function InHandler<E>(s: Server<E>, i: Input<E>, k: nat): Server<E>
    requires i.Receive? && k <= |i.after|
  {
    DoAll(Noted(DoAll(s, i.before), i.src, i.data), i.after[..k])
  }

  /** While a message is being read, a send from the network callback goes to the source
      of the message before it, or nowhere; one from the handlers that run after goes to
      the source of this message. */
  lemma HandlersSendTo<E>(s: Server<E>, ins: seq<Input<E>>, n: nat, k: nat, m: Sending)
    requires n < |ins| && s.lastPeer == None && ins[n].Receive?
    ensures k <= |ins[n].before| ==> Answers(InCallback(ServeAll(s, ins, n), ins[n], k), m, LastSource(s, ins, n))
    ensures k <= |ins[n].after| ==> Answers(InHandler(ServeAll(s, ins, n), ins[n], k), m, Some(ins[n].src))
  {
    hide DoAll, AnyRevokes, Answers;
    var at, i := ServeAll(s, ins, n), ins[n];
    LastPeerIsLastSource(s, ins, n);
    if k <= |i.before| {
      DoAllTable(at, i.before[..k]);
      AnswersLastPeer(InCallback(at, i, k), m);
    }
    if k <= |i.after| {
      DoAllTable(Noted(DoAll(at, i.before), i.src, i.data), i.after[..k]);
      AnswersLastPeer(InHandler(at, i, k), m);
    }
  }

  /** The server's answer gets on its way to `to`: queued, or sent through its socket. */
  ghost predicate Reaches<E>(s: Server<E>, m: Sending, to: HostAddr) {
    var (s1, code) := Do(s, ServerSend(None, m));
    m.data.Some? &&
    var o := Outgoing(to, m.data.value);
    if m.Async? then code == OK && s1.out.net.pending == s.out.net.pending + [o]
    else s.out.handle.Some? && s1.out.attempts == s.out.attempts + [Datagram(o, false)]
  }

  /** The device can send it: asynchronously in an engine, synchronously with a socket. */
  ghost predicate CanSend<E>(s: Endpoint<E>, m: Sending) {
    m.data.Some? && if m.Async? then s.engine.Some? else s.handle.Some?
  }

  lemma LastDiffers<T>(s: seq<T>, a: T, b: T)
    ensures s + [a] == s + [b] <==> a == b
    ensures s + [a] != s
  {
    assert (s + [a])[|s|] == a && (s + [b])[|s|] == b;
  }

  lemma AnswersReach<E>(s: Server<E>, m: Sending, to: Option<HostAddr>, src: HostAddr)
    requires Answers(s, m, to)
    ensures Reaches(s, m, src) <==> CanSend(s.out, m) && to == Some(src)
  {
    if m.data.Some? {
      var b := Outgoing(src, m.data.value);
      LastDiffers(s.out.attempts, Datagram(b, false), Datagram(b, false));
      if to.Some? {
        var a := Outgoing(to.value, m.data.value);
        LastDiffers(s.out.net.pending, a, b);
        LastDiffers(s.out.attempts, Datagram(a, false), Datagram(b, false));
      }
    }
  }

  /** So an answer from the network callback, asynchronous or not, reaches the source of
      the message being read exactly when the message before it came from there too, and
      the server can send. */
  lemma CallbackAnswersIff<E>(s: Server<E>, ins: seq<Input<E>>, n: nat, k: nat, m: Sending)
    requires n < |ins| && s.lastPeer == None && ins[n].Receive? && k <= |ins[n].before|
    ensures var at := InCallback(ServeAll(s, ins, n), ins[n], k);
            Reaches(at, m, ins[n].src) <==> CanSend(at.out, m) && LastSource(s, ins, n) == Some(ins[n].src)
  {
    hide Answers, Reaches, InCallback;
    HandlersSendTo(s, ins, n, k, m);
    AnswersReach(InCallback(ServeAll(s, ins, n), ins[n], k), m, LastSource(s, ins, n), ins[n].src);
  }

  /** The network callback of an echo server: its answer to the first message is refused,
      and its answer to b, who comes after a, is sent to a; by asyncSend through the queue,
      by syncSend at once. */
  lemma EchoGoesAstray<E>(s: Server<E>, b: HostAddr, data: Payload, sent: bool)
    requires s.out.entry.Some? && s.out.engine.Some?
    ensures var answer := Async(Some(data));
            Serve(s, Receive(b, data, [ServerSend(None, answer)], [])).out.net.pending ==
            s.out.net.pending + if s.lastPeer.None? then [] else [Outgoing(s.lastPeer.value, data)]
    ensures var answer := Sync(Some(data), sent);
            Serve(s, Receive(b, data, [ServerSend(None, answer)], [])).out.attempts ==
            s.out.attempts + if s.lastPeer.None? then [] else [Datagram(Outgoing(s.lastPeer.value, data), false)]
  {
    forall m: Sending ensures DoAll(s, [ServerSend(None, m)]) == Do(s, ServerSend(None, m)).0 {
      var ops := [ServerSend(None, m)];
      assert DoAll(s, ops) == DoAll(Do(s, ops[0]).0, []);
    }
  }

  // ------------------------------------------ the server as a network device

  /** The call on the inherited device that an operation comes down to, if any. */
  ghost function DeviceCall<E>(s: Server<E>, op: Op): Option<Call<E>> {
    match op
    case SetNewPeerHandler(_) => None
    case ServerDisconnect => Some(Disconnect)
    case ServerBind(lookup) => Some(Open(Bind(lookup)))
    case _ => if Target(s, op).None? then None else Some(SendCall(Target(s, op).value, op.message))
  }

  ghost function DeviceCalls<E>(s: Server<E>, ops: seq<Op>): seq<Call<E>>
    decreases |ops|
  {
    if ops == [] then []
    else
      var c := DeviceCall(s, ops[0]);
      (if c.Some? then [c.value] else []) + DeviceCalls(Do(s, ops[0]).0, ops[1..])
  }

  /** All that the handlers of a message call, one after the other. */
  ghost function HandlerCalls<E>(s: Server<E>, i: Input<E>): seq<Call<E>>
    requires i.Receive?
  {
    var s1 := DoAll(s, i.before);
    DeviceCalls(s, i.before) + if Told(s1, i.src) then DeviceCalls(Noted(s1, i.src, i.data), i.after) else []
  }

  /** The event of the inherited device that an input is. */
  ghost function DeviceEvent<E>(s: Server<E>, i: Input<E>): Event<E> {
    match i
    case Use(op) =>
      var c := DeviceCall(s, op);
      if c.Some? then Api(c.value) else ReadyRead(ReadFails, [])
    case Receive(_, _, _, _) => ReadyRead(ReadData, HandlerCalls(s, i))
    case ReceiveFails => ReadyRead(ReadFails, [])
    case WriteReady(out) => ReadyWrite(out)
  }

  ghost function DeviceEvents<E>(s: Server<E>, ins: seq<Input<E>>, n: nat): seq<Event<E>>
    requires n <= |ins|
  {
    if n == 0 then [] else DeviceEvents(s, ins, n - 1) + [DeviceEvent(ServeAll(s, ins, n - 1), ins[n - 1])]
  }

  lemma DoIsCall<E>(s: Server<E>, op: Op)
    requires s.out.kind.Plain?
    ensures var c := DeviceCall(s, op);
            Do(s, op).0.out == (if c.Some? then Perform(s.out, c.value).0 else s.out) && Do(s, op).0.out.kind.Plain?
  {
  }

  lemma {:induction false} DoAllIsCalls<E>(s: Server<E>, ops: seq<Op>)
    requires s.out.kind.Plain?
    ensures DoAll(s, ops).out == PerformAll(s.out, DeviceCalls(s, ops)) && DoAll(s, ops).out.kind.Plain?
    decreases |ops|
  {
    hide Do, DeviceCall, Perform;
    if ops != [] {
      var s1, c := Do(s, ops[0]).0, DeviceCall(s, ops[0]);
      DoIsCall(s, ops[0]);
      DoAllIsCalls(s1, ops[1..]);
      var cs := DeviceCalls(s1, ops[1..]);
      assert DeviceCalls(s, ops) == (if c.Some? then [c.value] else []) + cs;
      if c.Some? {
        assert ([c.value] + cs)[1..] == cs;
        assert PerformAll(s.out, [c.value] + cs) == PerformAll(Perform(s.out, c.value).0, cs);
      } else {
        assert [] + cs == cs;
      }
    }
  }

  /** To its device, every input of the server is an event of a plain network device. */
  lemma ServeIsDeliver<E>(s: Server<E>, i: Input<E>)
    requires s.out.kind.Plain?
    ensures Serve(s, i).out == Deliver(s.out, DeviceEvent(s, i)) && Serve(s, i).out.kind.Plain?
  {
    hide Do, DoAll, DeviceCall, DeviceCalls, Perform, PerformAll, DoReadyWrite;
    match i
    case Use(op) => DoIsCall(s, op);
    case Receive(src, data, before, after) =>
      var s1 := DoAll(s, before);
      DoAllIsCalls(s, before);
      DoAllIsCalls(Noted(s1, src, data), after);
      PerformBoth(s.out, DeviceCalls(s, before), DeviceCalls(Noted(s1, src, data), after));
      assert DeviceCalls(s, before) + [] == DeviceCalls(s, before);
    case ReceiveFails =>
    case WriteReady(out) =>
      PlainSend(s.out, out);
  }

  lemma PlainSend<E>(s: Endpoint<E>, out: SendOutcome<E>)
    requires s.kind.Plain?
    ensures DoReadyWrite(s, out).kind.Plain?
  {
    hide PerformSyncSend, DoReadyWrite;
    WriteEffect(s, out);
    if SendsStream(s) {
      SyncSendExtends(s, s.io.pending[0], true, out);
    }
  }

  /** So every run of the server is a run of its device, and has all the properties of
      those. */
  lemma {:induction false} ServerIsDevice<E>(s: Server<E>, ins: seq<Input<E>>, n: nat)
    requires n <= |ins| && s.out.kind.Plain?
    ensures ServeAll(s, ins, n).out == DeliverAll(s.out, DeviceEvents(s, ins, n))
    ensures ServeAll(s, ins, n).out.kind.Plain?
  {
    hide Serve, Deliver, DeviceEvent;
    if n > 0 {
      ServerIsDevice(s, ins, n - 1);
      ServeIsDeliver(ServeAll(s, ins, n - 1), ins[n - 1]);
      DeliverLast(s.out, DeviceEvents(s, ins, n - 1), DeviceEvent(ServeAll(s, ins, n - 1), ins[n - 1]));
    }
  }

  // ------------------------------------------------------------- descriptors

  lemma {:induction false} CallsStay<E>(s: Server<E>, ops: seq<Op>)
    ensures AllStay(DeviceCalls(s, ops))
    decreases |ops|
  {
    hide Do;
    if ops != [] {
      var s1, c := Do(s, ops[0]).0, DeviceCall(s, ops[0]);
      CallsStay(s1, ops[1..]);
      var cs := DeviceCalls(s1, ops[1..]);
      assert DeviceCalls(s, ops) == (if c.Some? then [c.value] else []) + cs;
      if c.Some? {
        assert ([c.value] + cs)[1..] == cs && CallStays(c.value);
      } else {
        assert [] + cs == cs;
      }
    }
  }

  lemma {:induction false} StayBoth<E>(a: seq<Call<E>>, b: seq<Call<E>>)
    requires AllStay(a) && AllStay(b)
    ensures AllStay(a + b)
    decreases |a|
  {
    if a == [] {
      assert a + b == b;
    } else {
      assert (a + b)[1..] == a[1..] + b;
      StayBoth(a[1..], b);
    }
  }

  lemma InputStays<E>(s: Server<E>, i: Input<E>)
    requires !i.WriteReady?
    ensures EventStays(DeviceEvent(s, i))
  {
    if i.Receive? {
      hide DoAll, Noted;
      var s2 := Noted(DoAll(s, i.before), i.src, i.data);
      CallsStay(s, i.before);
      CallsStay(s2, i.after);
      StayBoth(DeviceCalls(s, i.before), DeviceCalls(s2, i.after));
      assert DeviceCalls(s, i.before) + [] == DeviceCalls(s, i.before);
    }
  }

  /** The hooks of a plain device run no handler, so a write event moves only messages. */
  lemma PlainWriteSettled<E>(s: Endpoint<E>, out: SendOutcome<E>)
    requires s.kind.Plain? && Settled(s)
    ensures Settled(DoReadyWrite(s, out))
  {
    hide Settled, DoReadyWrite;
    WriteEffect(s, out);
    if SendsStream(s) {
      var t := PerformSyncSend(s, s.io.pending[0], true, out).0;
      QueuesSettled(s, t);
      QueuesSettled(t, DoReadyWrite(s, out));
    } else {
      QueuesSettled(s, DoReadyWrite(s, out));
    }
  }

  lemma WriteIsDelivered<E>(s: Server<E>, i: Input<E>)
    requires i.WriteReady?
    ensures Serve(s, i).out == if s.out.entry.Some? then DoReadyWrite(s.out, i.outcome) else s.out
  {
  }

  lemma {:induction false} ServerSettled<E>(s: Server<E>, ins: seq<Input<E>>, n: nat)
    requires n <= |ins| && s.out.kind.Plain? && Settled(s.out)
    ensures Settled(ServeAll(s, ins, n).out) && ServeAll(s, ins, n).out.kind.Plain?
  {
    hide Serve, Settled, DeviceEvent;
    if n > 0 {
      var at := ServeAll(s, ins, n - 1);
      ServerSettled(s, ins, n - 1);
      ServeIsDeliver(at, ins[n - 1]);
      if ins[n - 1].WriteReady? {
        PlainWriteSettled(at.out, ins[n - 1].outcome);
        WriteIsDelivered(at, ins[n - 1]);
      } else {
        InputStays(at, ins[n - 1]);
        DeliverSettled(at.out, DeviceEvent(at, ins[n - 1]));
      }
    }
  }

  /** From registration on, over every run with any number of binds, in handlers too, the
      server is bound exactly when it has a handle; and ~Server followed by ~IODevice
      leave every descriptor it took closed once. */
  lemma ServerLifeClosesAll<E>(e: E, ins: seq<Input<E>>, n: nat)
    requires n <= |ins|
    ensures var s := ServeAll(NewServer(e), ins, n);
            && (s.out.session.connected <==> s.out.handle.Some?)
            && var last := DestructEndpoint(Unbound(s).out); last.closed == last.taken
  {
    ServerSettled(NewServer(e), ins, n);
  }

  /** A bound server that was never put in an engine closes its descriptor twice when it
      is destroyed: in ~Server, which then keeps the handle, and in ~IODevice. */
  lemma UnloadedServerClosesTwice<E>(s: Server<E>)
    requires Owned(s.out) && s.out.engine.None? && s.out.handle.Some?
    ensures var last := DestructEndpoint(Unbound(s).out);
            last.closed == last.taken + multiset{s.out.handle.value}
  {
  }

  // -------------------------------------------------- sending: queues, interest

  /** Binding over pending messages. */
  ghost predicate BindsOver<E>(s: Server<E>, op: Op) {
    op.ServerBind? && Pending(s.out) && Reopens(s.out, SocketOf(Bind(op.lookup)))
  }

  /** Armed after each of the calls. */
  ghost predicate ArmedOps<E>(s: Server<E>, ops: seq<Op>)
    decreases |ops|
  {
    ops != [] ==> var s1 := Do(s, ops[0]).0; Armed(s1.out) && ArmedOps(s1, ops[1..])
  }

  /** None of the calls binds over pending messages. */
  ghost predicate NoneBindsOver<E>(s: Server<E>, ops: seq<Op>)
    decreases |ops|
  {
    ops != [] ==> !BindsOver(s, ops[0]) && NoneBindsOver(Do(s, ops[0]).0, ops[1..])
  }

  /** Armed after the input, and after each call that its handlers make. */
  ghost predicate InputArmed<E>(s: Server<E>, i: Input<E>) {
    && Armed(Serve(s, i).out)
    && (i.Receive? && s.out.entry.Some? ==>
          var s1 := DoAll(s, i.before);
          ArmedOps(s, i.before) && (Told(s1, i.src) ==> ArmedOps(Noted(s1, i.src, i.data), i.after)))
  }

  ghost predicate InputBindsNotOver<E>(s: Server<E>, i: Input<E>) {
    match i
    case Use(op) => !BindsOver(s, op)
    case Receive(src, data, before, after) =>
      s.out.entry.Some? ==>
        var s1 := DoAll(s, before);
        NoneBindsOver(s, before) && (Told(s1, src) ==> NoneBindsOver(Noted(s1, src, data), after))
    case _ => true
  }

  /** What every input keeps, however it goes. */
  ghost predicate ServerOk<E>(s: Server<E>) {
    EntryAgrees(s.out) && s.out.kind.Plain?
  }

  /** A new server in an engine meets what the runs below start from. */
  lemma NewServerOk<E>(e: E)
    ensures var s := NewServer(e);
            ServerOk(s) && Armed(s.out) && Conserved(s.out) && Settled(s.out)
  {
  }

  lemma DoArmedIff<E>(s: Server<E>, op: Op)
    requires ServerOk(s) && Armed(s.out)
    ensures var s1 := Do(s, op).0; ServerOk(s1) && (Armed(s1.out) <==> !BindsOver(s, op))
  {
    hide Do, EntryAgrees, Armed, Perform, Target;
    var c := DeviceCall(s, op);
    DoIsCall(s, op);
    if c.Some? {
      CallEntry(s.out, c.value);
      PlainArmedIff(s.out, c.value);
    }
  }

  lemma {:induction false} DoAllArmedIff<E>(s: Server<E>, ops: seq<Op>)
    requires ServerOk(s) && Armed(s.out)
    ensures ArmedOps(s, ops) <==> NoneBindsOver(s, ops)
    ensures ArmedOps(s, ops) ==> Armed(DoAll(s, ops).out) && ServerOk(DoAll(s, ops))
    decreases |ops|
  {
    hide Do, BindsOver, ServerOk, Armed;
    if ops != [] {
      DoArmedIff(s, ops[0]);
      if Armed(Do(s, ops[0]).0.out) {
        DoAllArmedIff(Do(s, ops[0]).0, ops[1..]);
      }
    }
  }

  /** An armed server stays armed through an input, and through all that handlers call in
      it, exactly when nothing binds over pending messages. */
  lemma ServeArmedIff<E>(s: Server<E>, i: Input<E>)
    requires ServerOk(s) && Armed(s.out)
    ensures InputArmed(s, i) <==> InputBindsNotOver(s, i)
  {
    hide Do, DoAll, BindsOver, ArmedOps, NoneBindsOver, Armed, DoReadyWrite;
    match i
    case Use(op) => DoArmedIff(s, op);
    case Receive(src, data, before, after) =>
      var s1 := DoAll(s, before);
      DoAllArmedIff(s, before);
      if ArmedOps(s, before) {
        DoAllArmedIff(Noted(s1, src, data), after);
      }
    case ReceiveFails =>
    case WriteReady(out) =>
      if s.out.entry.Some? {
        WriteArmed(s.out, out);
      }
  }

  lemma ServeKeepsOk<E>(s: Server<E>, i: Input<E>)
    requires ServerOk(s)
    ensures ServerOk(Serve(s, i))
  {
    hide Serve, DeviceEvent, EntryAgrees;
    ServeIsDeliver(s, i);
    EventEntry(s.out, DeviceEvent(s, i));
  }

  ghost predicate ArmedRun<E>(s: Server<E>, ins: seq<Input<E>>, n: nat)
    requires n <= |ins|
  {
    forall k: nat :: k < n ==> InputArmed(ServeAll(s, ins, k), ins[k])
  }

  ghost predicate NoBindOverRun<E>(s: Server<E>, ins: seq<Input<E>>, n: nat)
    requires n <= |ins|
  {
    forall k: nat :: k < n ==> InputBindsNotOver(ServeAll(s, ins, k), ins[k])
  }

  /** Over every run, with sends by the server, by its peers and from inside handlers, no
      accepted message is lost, repeated or reordered; and none is left without an
      interest in writing, at any moment, exactly when nothing binds over pending ones. */
  lemma {:induction false} ServerNeverStrands<E>(s: Server<E>, ins: seq<Input<E>>, n: nat)
    requires ServerOk(s) && Armed(s.out) && Conserved(s.out) && n <= |ins|
    ensures Conserved(ServeAll(s, ins, n).out) && LogsGrow(s.out, ServeAll(s, ins, n).out)
    ensures ServerOk(ServeAll(s, ins, n))
    ensures ArmedRun(s, ins, n) <==> NoBindOverRun(s, ins, n)
    ensures ArmedRun(s, ins, n) ==> Armed(ServeAll(s, ins, n).out)
  {
    hide Serve, Armed, Conserved, LogsGrow, InputBindsNotOver;
    ServerIsDevice(s, ins, n);
    RunConserves(s.out, DeviceEvents(s, ins, n));
    if n > 0 {
      var at := ServeAll(s, ins, n - 1);
      ServerNeverStrands(s, ins, n - 1);
      ServeKeepsOk(at, ins[n - 1]);
      if ArmedRun(s, ins, n - 1) {
        ServeArmedIff(at, ins[n - 1]);
        LastArmed(s, ins, n);
      } else {
        assert !ArmedRun(s, ins, n) && !NoBindOverRun(s, ins, n);
      }
    }
  }

  lemma LastArmed<E>(s: Server<E>, ins: seq<Input<E>>, n: nat)
    requires 0 < n <= |ins|
    ensures InputArmed(ServeAll(s, ins, n - 1), ins[n - 1]) ==> Armed(ServeAll(s, ins, n).out)
  {
  }

  /** What strands in practice: binding again, say to another port, with messages pending. */
  lemma RebindStrands<E>(s: Server<E>, lookup: Lookup)
    requires s.out.engine.Some? && Pending(s.out) && AcquiredFrom(lookup, true).Some?
    ensures !Armed(Do(s, ServerBind(lookup)).0.out)
  {
  }
}
