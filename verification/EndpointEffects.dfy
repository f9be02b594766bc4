/** What each call and each ready event leaves a device as, field by field, with its return
    code. */
module EndpointEffects {
  import opened Basics
  import opened RegistryModel
  import opened Sockets
  import opened EndpointModel

  // ---------------------------------------------------------------- sending

  /** A multicaster can send once it is initialised and has a group, every other device
      once it has a handle. */
  ghost predicate Ready<E>(s: Endpoint<E>) {
    match s.kind
    case Multicaster => s.session.connected && s.published
    case _ => s.handle.Some?
  }

  /** The interest of a polled device, asked to be i. */
  ghost function Asked(entry: Option<Interest>, i: Interest): Option<Interest> {
    if entry.Some? then Some(i) else None
  }

  lemma AsyncSendEffect<E>(s: Endpoint<E>, data: Option<Payload>)
    ensures var (s1, code) := Perform(s, AsyncSend(data));
            if data.Some? && (s.engine.Some? || Ready(s)) then
              && code == OK
              && s1 == s.(io := Queue(s.io.pending + [data.value], s.io.accepted + [data.value]),
                          entry := Asked(s.entry, PollOut))
            else code == NOK && s1 == s
  {
  }

  lemma SendToEffect<E>(s: Endpoint<E>, dest: HostAddr, data: Option<Payload>)
    ensures var (s1, code) := Perform(s, SendTo(dest, data));
            if data.Some? && s.engine.Some? then
              var o := Outgoing(dest, data.value);
              && code == OK
              && s1 == s.(net := Queue(s.net.pending + [o], s.net.accepted + [o]), entry := Asked(s.entry, PollOut))
            else code == NOK && s1 == s
  {
  }

  lemma SyncSendToEffect<E>(s: Endpoint<E>, dest: HostAddr, data: Option<Payload>, sent: bool)
    ensures var (s1, code) := Perform(s, SyncSendTo(dest, data, sent));
            if data.Some? then
              && s1 == s.(attempts := s.attempts + [Datagram(Outgoing(dest, data.value), false)])
              && code == if s.handle.Some? && sent then OK else NOK
            else code == NOK && s1 == s
  {
  }

  /** With message m handed over: what the outcome of a synchronous send makes of a device.
      An error reconnects a UDP client; a hangup ends the connection of a TCP client and
      runs its handler; both leave other devices alone. */
  ghost predicate SentAs<E>(s: Endpoint<E>, out: SendOutcome<E>, s1: Endpoint<E>, code: ReturnCode) {
    if s.handle.None? then s1 == s && code == NOK
    else match out
      case PollFails => s1 == s && code == NOK
      case WriteFails => s1 == s && code == NOK
      case Wrote =>
        s1 == (if s.kind.Multicaster? then s else s.(entry := Asked(s.entry, PollIn))) && code == OK
      case Raised(event, lookup, handler) =>
        && code == NOK
        && s1 == match s.kind
           case UdpClient => if event.ErrorRaised? then Perform(s, Open(Connect(lookup))).0 else s
           case TcpClient => if event.ErrorRaised? then s else PerformAll(PeerLost(s), handler)
           case _ => s
  }

  lemma HookEffect<E>(s: Endpoint<E>, out: SendOutcome<E>)
    requires out.Raised?
    ensures Hook(s, out) ==
            match s.kind
            case UdpClient => if out.event.ErrorRaised? then Perform(s, Open(Connect(out.lookup))).0 else s
            case TcpClient => if out.event.ErrorRaised? then s else PerformAll(PeerLost(s), out.handler)
            case _ => s
  {
    hide DoOpen;
    assert PeerDisconnected(s, out.handler) == PerformAll(PeerLost(s), out.handler);
  }

  lemma PerformSyncSendEffect<E>(s: Endpoint<E>, m: Payload, queued: bool, out: SendOutcome<E>)
    ensures var (s1, code) := PerformSyncSend(s, m, queued, out);
            SentAs(s.(attempts := s.attempts + [Stream(m, queued)]), out, s1, code)
  {
    hide Hook, Perform, PerformAll;
    if out.Raised? {
      HookEffect(Logged(s, Stream(m, queued)), out);
    }
  }

  /** syncSend hands its payload over exactly when the device is ready. */
  lemma SyncSendEffect<E>(s: Endpoint<E>, data: Option<Payload>, out: SendOutcome<E>)
    ensures var (s1, code) := Perform(s, SyncSend(data, out));
            if data.Some? && Ready(s) then
              SentAs(s.(attempts := s.attempts + [Stream(data.value, false)]), out, s1, code)
            else code == NOK && s1 == s
  {
    hide PerformSyncSend, SentAs;
    if data.Some? {
      PerformSyncSendEffect(s, data.value, false, out);
    }
  }

  // ---------------------------------------------------------------- opening

  /** Opening this way ends with descriptor fd. */
  ghost predicate Gets(how: Opening, fd: int) {
    match how
    case Connect(lookup) => Wins(lookup, false, fd)
    case Bind(lookup) => Wins(lookup, true, fd)
    case Initialise(sock) => sock == Some(fd)
  }

  lemma SocketOfIff(how: Opening)
    ensures forall fd :: SocketOf(how) == Some(fd) <==> Gets(how, fd)
  {
    hide AcquiredFrom, Wins;
    match how
    case Connect(lookup) => AcquiredFromIff(lookup, false);
    case Bind(lookup) => AcquiredFromIff(lookup, true);
    case Initialise(_) =>
  }

  /** The kinds of device that have the call. */
  ghost predicate HasCall(k: Kind, how: Opening) {
    || (how.Connect? && k in {TcpClient, UdpClient}) || (how.Bind? && k == Plain)
    || (how.Initialise? && k == Multicaster)
  }

  /** What the device had is closed and ended, and forgotten if it is in an engine. */
  ghost predicate Closed<E>(s: Endpoint<E>, s1: Endpoint<E>, notified: bool) {
    && s1 == s.(handle := s1.handle, entry := None, closed := s1.closed, session := s1.session)
    && s1.handle == (if s.engine.Some? then None else s.handle)
    && s1.closed == s.closed + (if s.handle.Some? then multiset{s.handle.value} else multiset{})
    && !s1.session.connected && s1.session.established == s.session.established
    && (if notified then s1.session.notified == s.session.notified + 1 && s1.session.dropped == s.session.dropped
        else && s1.session.notified == s.session.notified
             && s1.session.dropped == s.session.dropped + if s.session.connected then 1 else 0)
  }

  /** Disconnected first, the device then has socket fd, as the begin of a new session, and
      is polled for reading if it is in an engine. */
  ghost predicate Opened<E>(s: Endpoint<E>, fd: int, s1: Endpoint<E>) {
    && s1 == s.(handle := Some(fd), entry := if s.engine.Some? then Some(PollIn) else None,
                taken := s.taken + multiset{fd}, closed := s1.closed, session := s1.session)
    && s1.closed == s.closed + (if s.handle.Some? then multiset{s.handle.value} else multiset{})
    && s1.session == Session(true, s.session.established + 1, s.session.notified,
                             s.session.dropped + if s.session.connected then 1 else 0)
  }

  lemma DisconnectEffect<E>(s: Endpoint<E>)
    ensures var (s1, code) := Perform(s, Disconnect); Closed(s, s1, false) && code == OK
  {
  }

  lemma DoOpenEffect<E>(s: Endpoint<E>, sock: Option<int>)
    ensures var (s1, code) := DoOpen(s, sock);
            if sock.Some? then Opened(s, sock.value, s1) && code == OK else Closed(s, s1, false) && code == NOK
  {
  }

  /** An opening answers OK exactly when it gets a socket, which is then the handle of a
      connected device; else the device is left disconnected. */
  lemma OpenEffect<E>(s: Endpoint<E>, how: Opening)
    requires HasCall(s.kind, how)
    ensures var (s1, code) := Perform(s, Open(how));
            && (forall fd :: Gets(how, fd) ==> code == OK && Opened(s, fd, s1))
            && ((forall fd :: !Gets(how, fd)) ==> code == NOK && Closed(s, s1, false))
            && (code == OK <==> s1.session.connected)
            && (code == OK <==> exists fd :: Gets(how, fd))
  {
    hide Gets, DoOpen, SocketOf;
    SocketOfIff(how);
    DoOpenEffect(s, SocketOf(how));
    if SocketOf(how).Some? {
      assert Gets(how, SocketOf(how).value);
    }
  }

  /** A multicaster that is initialised takes a valid group, or loses the one it had; with
      a group it is ready. */
  lemma PublishEffect<E>(s: Endpoint<E>, valid: bool)
    ensures var (s1, code) := Perform(s, Publish(valid));
            if s.kind.Multicaster? && s.session.connected then
              s1 == s.(published := valid) && code == (if valid then OK else NOK) && (Ready(s1) <==> valid)
            else s1 == s && code == NOK
  {
  }

  // ---------------------------------------------------------- engines, the end

  lemma LoadEffect<E>(s: Endpoint<E>, e: E)
    ensures Perform(s, Load(e)).1 == OK && Perform(s, Unload).1 == OK
    ensures Perform(s, Load(e)).0 ==
            if s.engine == Some(e) then s
            else s.(engine := Some(e), entry := if s.handle.Some? then Some(PollIn) else None)
    ensures Perform(s, Unload).0 == s.(engine := None, entry := None)
  {
  }

  lemma DestructEffect<E>(s: Endpoint<E>)
    ensures DestructEndpoint(s) ==
            s.(engine := None, entry := None,
               closed := s.closed + if s.handle.Some? then multiset{s.handle.value} else multiset{})
  {
  }

  // ---------------------------------------------------------------- handlers

  lemma PeerLostEffect<E>(s: Endpoint<E>)
    ensures Closed(s, PeerLost(s), true)
  {
  }

  /** A handler makes its calls one after the other, each on what the ones before left. */
  lemma {:induction false} HandlerEffect<E>(s: Endpoint<E>, cs: seq<Call<E>>, c: Call<E>)
    ensures PerformAll(s, []) == s
    ensures PerformAll(s, cs + [c]) == Perform(PerformAll(s, cs), c).0
  {
    assert PerformAll(s, [c]) == PerformAll(Perform(s, c).0, []);
    PerformBoth(s, cs, [c]);
    assert PerformAll(PerformAll(s, cs), [c]) == PerformAll(Perform(PerformAll(s, cs), c).0, []);
  }

  ghost function Sends<E>(ms: seq<Payload>): seq<Call<E>> {
    seq(|ms|, i requires 0 <= i < |ms| => AsyncSend(Some(ms[i])))
  }

  /** So what a handler sends is queued in the order of its calls. */
  lemma {:induction false} SendsInOrder<E>(s: Endpoint<E>, ms: seq<Payload>)
    requires s.engine.Some?
    ensures var s1 := PerformAll(s, Sends<E>(ms));
            s1.io.pending == s.io.pending + ms && s1.engine == s.engine && s1.net == s.net
    decreases |ms|
  {
    if ms == [] {
      assert Sends<E>(ms) == [];
    } else {
      var n := |ms| - 1;
      SendsInOrder(s, ms[..n]);
      assert Sends<E>(ms) == Sends<E>(ms[..n]) + [AsyncSend(Some(ms[n]))];
      HandlerEffect(s, Sends<E>(ms[..n]), AsyncSend(Some(ms[n])));
      assert ms == ms[..n] + [ms[n]];
    }
  }

  // ------------------------------------------------------------ ready events

  lemma ReadEffect<E>(s: Endpoint<E>, read: ReadOutcome, handler: seq<Call<E>>)
    ensures DoReadyRead(s, read, handler) ==
            match s.kind
            case TcpClient => PerformAll(if read.ReadData? then s else PeerLost(s), handler)
            case _ => if read.ReadFails? then s else PerformAll(s, handler)
  {
  }

  /** What ready events other than reading and writing do to a polled device. */
  lemma AlarmEffect<E>(s: Endpoint<E>, lookup: Lookup, handler: seq<Call<E>>)
    requires s.entry.Some?
    ensures Deliver(s, ReadyError(lookup)) ==
            if s.kind == UdpClient then Perform(s, Open(Connect(lookup))).0 else s
    ensures Deliver(s, ReadyHangup(handler)) ==
            if s.kind == TcpClient then PerformAll(PeerLost(s), handler) else s
    ensures Deliver(s, ReadyPeerDisconnect(handler)) == Deliver(s, ReadyHangup(handler))
  {
    hide DoOpen;
    assert PeerDisconnected(s, handler) == PerformAll(PeerLost(s), handler);
  }

  /** A write event of a polled device with a handle: nothing pending turns the interest
      back to reading; else the message due is handed over, taken off whatever became of
      it, and the interest asked for again. */
  lemma WriteEventEffect<E>(s: Endpoint<E>, out: SendOutcome<E>)
    requires s.handle.Some?
    ensures var s1, io, net := DoReadyWrite(s, out), s.io.pending, s.net.pending;
            if io == [] && net == [] then s1 == s.(entry := Asked(s.entry, PollIn))
            else if io == [] || (net != [] && !s.kind.Multicaster?) then
              s1 == s.(net := Queue(net[1..], s.net.accepted), attempts := s.attempts + [Datagram(net[0], true)],
                       entry := Asked(s.entry, PollOut))
            else if s.kind.Multicaster? then
              s1 == s.(io := Queue(io[1..], s.io.accepted), attempts := s.attempts + [Stream(io[0], true)],
                       entry := Asked(s.entry, PollOut))
            else
              var (t, code) := PerformSyncSend(s, io[0], true, out);
              && SentAs(s.(attempts := s.attempts + [Stream(io[0], true)]), out, t, code)
              && s1 == t.(io := t.io.Pop(), entry := Asked(t.entry, PollOut))
  {
    hide PerformSyncSend, SentAs;
    if s.io.pending != [] {
      PerformSyncSendEffect(s, s.io.pending[0], true, out);
    }
  }
}
