/** One network device as a value: its two outgoing queues, its poll interest, its
    connection and its descriptors, and what API calls and ready events do to them.
    E is the identity of engines. */
module EndpointModel {
  import opened Basics
  import opened RegistryModel
  import opened Sockets

  /** Which overrides of the virtual functions the device has.  A UDP receiver and the
      inherited part of a UDP server are plain, a UDP sender is like a UDP client. */
  datatype Kind = Plain | TcpClient | UdpClient | Multicaster

  type Payload = seq<int>

  datatype HostAddr = HostAddr(ip: string, port: nat)

  datatype Outgoing = Outgoing(dest: HostAddr, data: Payload)

  /** A std::queue, with a log of everything that was put into it. */
  datatype Queue<M> = Queue(pending: seq<M>, accepted: seq<M>) {
    function Push(m: M): Queue<M> {
      Queue(pending + [m], accepted + [m])
    }

    function Pop(): Queue<M> {
      if pending == [] then this else this.(pending := pending[1..])
    }
  }

  /** A message that was handed to performSyncSend or performSendTo, or to sendto by a
      multicaster's write event; queued says that it was the front of its queue and not
      the argument of a synchronous send. */
  datatype Attempt = Stream(data: Payload, queued: bool) | Datagram(message: Outgoing, queued: bool)

  /** mIsConnected, mIsBound or mInitalised, and the sessions begun, ended by the peer
      with a notification, and ended by this side. */
  datatype Session = Session(connected: bool, established: nat, notified: nat, dropped: nat)

  /** entry is the interest of the device's poll entry, if it has one; published says
      that a multicaster has a group to send to. */
  datatype Endpoint<E> = Endpoint(
    kind: Kind, published: bool,
    engine: Option<E>, handle: Option<int>, entry: Option<Interest>,
    io: Queue<Payload>, net: Queue<Outgoing>, attempts: seq<Attempt>,
    session: Session,
    taken: multiset<int>, closed: multiset<int>)

  /** A new device that has been registered with engine e. */
  ghost function NewEndpoint<E>(kind: Kind, e: E): Endpoint<E> {
    Endpoint(kind, false, Some(e), None, None, Queue([], []), Queue([], []), [],
             Session(false, 0, 0, 0), multiset{}, multiset{})
  }

  // ----------------------------------------------------------- inputs

  datatype PeerEvent = ErrorRaised | HangupRaised | PeerGoneRaised

  /** How the system calls of performSyncSend turn out.  A raised event runs the
      device's hook: a lookup for the one that reconnects, and whatever calls the
      user's handler makes for the one that notifies. */
  datatype SendOutcome<E> =
    | PollFails
    | WriteFails
    | Wrote
    | Raised(event: PeerEvent, lookup: Lookup, handler: seq<Call<E>>)

  /** The calls that get a device its socket: connectToHost of the clients, bind of a
      receiver, and initialise of a multicaster, with what they find. */
  datatype Opening = Connect(lookup: Lookup) | Bind(lookup: Lookup) | Initialise(sock: Option<int>)

  /** A call that user code can make, inside a handler or outside.  A payload of None
      is a null pointer. */
  datatype Call<E> =
    | AsyncSend(data: Option<Payload>)
    | SendTo(dest: HostAddr, data: Option<Payload>)
    | SyncSend(data: Option<Payload>, outcome: SendOutcome<E>)
    | SyncSendTo(dest: HostAddr, data: Option<Payload>, sent: bool)
    | Open(how: Opening)
    | Disconnect
    | Publish(valid: bool)
    | Load(engine: E)
    | Unload

  datatype ReadOutcome = ReadFails | ReadEmpty | ReadData

  /** What can happen to the device from outside: a call, or one of the callbacks of a
      dispatch round. */
  datatype Event<E> =
    | Api(call: Call<E>)
    | ReadyRead(read: ReadOutcome, handler: seq<Call<E>>)
    | ReadyWrite(outcome: SendOutcome<E>)
    | ReadyError(lookup: Lookup)
    | ReadyHangup(handler: seq<Call<E>>)
    | ReadyPeerDisconnect(handler: seq<Call<E>>)

  // ----------------------------------------------------- device primitives

  ghost function SetEntry<E>(s: Endpoint<E>, i: Interest): Endpoint<E> {
    s.(entry := if s.entry.Some? then Some(i) else None)
  }

  ghost function TakeHandle<E>(s: Endpoint<E>, h: int): Endpoint<E> {
    s.(handle := Some(h), taken := s.taken + multiset{h},
       entry := if s.engine.None? then None else if s.entry.Some? then s.entry else Some(PollIn))
  }

  ghost function LoseHandle<E>(s: Endpoint<E>): Endpoint<E> {
    s.(closed := s.closed + Current(s.handle),
       handle := if s.engine.None? then s.handle else None,
       entry := None)
  }

  ghost function Join<E>(s: Endpoint<E>, e: E): Endpoint<E> {
    if s.engine == Some(e) then s
    else s.(engine := Some(e), entry := if s.handle.Some? then Some(PollIn) else None)
  }

  ghost function Leave<E>(s: Endpoint<E>): Endpoint<E> {
    s.(engine := None, entry := None)
  }

  // ------------------------------------------------------------- API calls

  ghost predicate DeviceIsReady<E>(s: Endpoint<E>) {
    if s.kind.Multicaster? then s.published && s.session.connected else s.handle.Some?
  }

  ghost function DoAsyncSend<E>(s: Endpoint<E>, data: Option<Payload>): (Endpoint<E>, ReturnCode) {
    if (s.engine.None? && !DeviceIsReady(s)) || data.None? then (s, NOK)
    else (SetEntry(s.(io := s.io.Push(data.value)), PollOut), OK)
  }

  ghost function DoSendTo<E>(s: Endpoint<E>, dest: HostAddr, data: Option<Payload>): (Endpoint<E>, ReturnCode) {
    if s.engine.None? || data.None? then (s, NOK)
    else (SetEntry(s.(net := s.net.Push(Outgoing(dest, data.value))), PollOut), OK)
  }

  /** disconnect of the clients and of a receiver, deInitialise of a multicaster. */
  ghost function DoDisconnect<E>(s: Endpoint<E>): Endpoint<E> {
    LoseHandle(s).(session := s.session.(
      connected := false,
      dropped := s.session.dropped + if s.session.connected then 1 else 0))
  }

  /** The devices that have the call. */
  predicate Offers(k: Kind, how: Opening) {
    match how
    case Connect(_) => k.TcpClient? || k.UdpClient?
    case Bind(_) => k.Plain?
    case Initialise(_) => k.Multicaster?
  }

  function SocketOf(how: Opening): Option<int> {
    match how
    case Connect(lookup) => AcquiredFrom(lookup, false)
    case Bind(lookup) => AcquiredFrom(lookup, true)
    case Initialise(sock) => sock
  }

  /** Opening starts with a disconnect, also when it then fails. */
  ghost function DoOpen<E>(s: Endpoint<E>, sock: Option<int>): (Endpoint<E>, ReturnCode) {
    var s1 := DoDisconnect(s);
    if sock.None? then (s1, NOK)
    else
      (TakeHandle(s1, sock.value).(session := s1.session.(
         connected := true, established := s1.session.established + 1)), OK)
  }

  /** Client::connectToHost, of both clients. */
  ghost function DoConnect<E>(s: Endpoint<E>, lookup: Lookup): (Endpoint<E>, ReturnCode) {
    DoOpen(s, SocketOf(Connect(lookup)))
  }

  /** Client::peerDisconnected up to the notification. */
  ghost function PeerLost<E>(s: Endpoint<E>): Endpoint<E> {
    LoseHandle(s).(session := s.session.(connected := false, notified := s.session.notified + 1))
  }

  ghost function PeerDisconnected<E>(s: Endpoint<E>, handler: seq<Call<E>>): Endpoint<E>
    decreases handler, 1
  {
    PerformAll(PeerLost(s), handler)
  }

  /** The hook that performSyncSend runs for an event on the descriptor. */
  ghost function Hook<E>(s: Endpoint<E>, out: SendOutcome<E>): Endpoint<E>
    requires out.Raised?
    decreases out, 0
  {
    if out.event.ErrorRaised? then
      if s.kind.UdpClient? then DoConnect(s, out.lookup).0 else s
    else if s.kind.TcpClient? then PeerDisconnected(s, out.handler)
    else s
  }

  ghost function Logged<E>(s: Endpoint<E>, a: Attempt): Endpoint<E> {
    s.(attempts := s.attempts + [a])
  }

  ghost function PerformSyncSend<E>(s: Endpoint<E>, m: Payload, queued: bool, out: SendOutcome<E>)
    : (Endpoint<E>, ReturnCode)
    decreases out, 1
  {
    var t := Logged(s, Stream(m, queued));
    if s.handle.None? then (t, NOK)
    else match out
      case PollFails => (t, NOK)
      case WriteFails => (t, NOK)
      case Wrote => (if s.kind.Multicaster? then t else SetEntry(t, PollIn), OK)
      case Raised(_, _, _) => (Hook(t, out), NOK)
  }

  /** NetworkDevice::performSendTo. */
  ghost function PerformSendTo<E>(s: Endpoint<E>, m: Outgoing, queued: bool, sent: bool): (Endpoint<E>, ReturnCode) {
    (Logged(s, Datagram(m, queued)), if s.handle.Some? && sent then OK else NOK)
  }

  ghost function Perform<E>(s: Endpoint<E>, c: Call<E>): (Endpoint<E>, ReturnCode)
    decreases c, 0
  {
    match c
    case AsyncSend(data) => DoAsyncSend(s, data)
    case SendTo(dest, data) => DoSendTo(s, dest, data)
    case SyncSend(data, out) =>
      if data.None? || !DeviceIsReady(s) then (s, NOK) else PerformSyncSend(s, data.value, false, out)
    case SyncSendTo(dest, data, sent) =>
      if data.None? then (s, NOK) else PerformSendTo(s, Outgoing(dest, data.value), false, sent)
    case Open(how) => if Offers(s.kind, how) then DoOpen(s, SocketOf(how)) else (s, NOK)
    case Disconnect => (DoDisconnect(s), OK)
    case Publish(valid) =>
      if !s.kind.Multicaster? || !s.session.connected then (s, NOK)
      else (s.(published := valid), if valid then OK else NOK)
    case Load(e) => (Join(s, e), OK)
    case Unload => (Leave(s), OK)
  }

  ghost function PerformAll<E>(s: Endpoint<E>, cs: seq<Call<E>>): Endpoint<E>
    decreases cs, 0
  {
    if cs == [] then s else PerformAll(Perform(s, cs[0]).0, cs[1..])
  }

  lemma {:induction false} PerformBoth<E>(s: Endpoint<E>, a: seq<Call<E>>, b: seq<Call<E>>)
    ensures PerformAll(s, a + b) == PerformAll(PerformAll(s, a), b)
    decreases |a|
  {
    hide Perform;
    if a == [] {
      assert a + b == b;
    } else {
      assert (a + b)[1..] == a[1..] + b;
      PerformBoth(Perform(s, a[0]).0, a[1..], b);
    }
  }

  // ---------------------------------------------------------- ready events

  /** IODevice::readyWrite. */
  ghost function IoReadyWrite<E>(s: Endpoint<E>, out: SendOutcome<E>): Endpoint<E> {
    if s.io.pending == [] then SetEntry(s, PollIn)
    else if s.handle.None? then s
    else
      var s1 := PerformSyncSend(s, s.io.pending[0], true, out).0;
      SetEntry(s1.(io := s1.io.Pop()), PollOut)
  }

  /** NetworkDevice::readyWrite. */
  ghost function NetReadyWrite<E>(s: Endpoint<E>, out: SendOutcome<E>): Endpoint<E> {
    if s.net.pending == [] then IoReadyWrite(s, out)
    else
      var s1 := PerformSendTo(s, s.net.pending[0], true, out.Wrote?).0;
      SetEntry(s1.(net := s1.net.Pop()), PollOut)
  }

  /** Multicaster::readyWrite. */
  ghost function MulticastReadyWrite<E>(s: Endpoint<E>, out: SendOutcome<E>): Endpoint<E> {
    if s.io.pending == [] then NetReadyWrite(s, out)
    else
      var s1 := Logged(s, Stream(s.io.pending[0], true));
      SetEntry(s1.(io := s1.io.Pop()), PollOut)
  }

  ghost function DoReadyWrite<E>(s: Endpoint<E>, out: SendOutcome<E>): Endpoint<E> {
    if s.kind.Multicaster? then MulticastReadyWrite(s, out) else NetReadyWrite(s, out)
  }

  /** A write event reaches performSyncSend only for the front of the stream queue, not
      in a multicaster, and after all datagrams. */
  ghost predicate SendsStream<E>(s: Endpoint<E>) {
    s.handle.Some? && !s.kind.Multicaster? && s.net.pending == [] && s.io.pending != []
  }

  /** s1 is s but for its messages and its interest. */
  ghost predicate OnlyMessages<E>(s: Endpoint<E>, s1: Endpoint<E>) {
    && s1 == s.(io := s1.io, net := s1.net, attempts := s1.attempts, entry := s1.entry)
    && (s1.entry.Some? <==> s.entry.Some?)
  }

  /** Apart from that send, a write event moves nothing but messages. */
  lemma WriteEffect<E>(s: Endpoint<E>, out: SendOutcome<E>)
    ensures if SendsStream(s) then
              var t := PerformSyncSend(s, s.io.pending[0], true, out).0;
              && DoReadyWrite(s, out) == SetEntry(t.(io := t.io.Pop()), PollOut)
              && OnlyMessages(t, DoReadyWrite(s, out))
            else OnlyMessages(s, DoReadyWrite(s, out))
  {
    hide PerformSyncSend;
  }

  /** A TCP client takes an empty read, failed or not, for the end of the connection;
      the others pass on whatever they read. */
  ghost function DoReadyRead<E>(s: Endpoint<E>, read: ReadOutcome, handler: seq<Call<E>>): Endpoint<E> {
    if s.kind.TcpClient? then
      if read.ReadData? then PerformAll(s, handler) else PeerDisconnected(s, handler)
    else if read.ReadFails? then s
    else PerformAll(s, handler)
  }

  /** A ready event reaches only a device that has a poll entry. */
  ghost function Deliver<E>(s: Endpoint<E>, ev: Event<E>): Endpoint<E> {
    if ev.Api? then Perform(s, ev.call).0
    else if s.entry.None? then s
    else match ev
      case ReadyRead(read, handler) => DoReadyRead(s, read, handler)
      case ReadyWrite(out) => DoReadyWrite(s, out)
      case ReadyError(lookup) => if s.kind.UdpClient? then DoConnect(s, lookup).0 else s
      case ReadyHangup(handler) => if s.kind.TcpClient? then PeerDisconnected(s, handler) else s
      case ReadyPeerDisconnect(handler) => if s.kind.TcpClient? then PeerDisconnected(s, handler) else s
  }

  ghost function DeliverAll<E>(s: Endpoint<E>, evs: seq<Event<E>>): Endpoint<E>
    decreases |evs|
  {
    if evs == [] then s else DeliverAll(Deliver(s, evs[0]), evs[1..])
  }

  lemma {:induction false} DeliverLast<E>(s: Endpoint<E>, evs: seq<Event<E>>, ev: Event<E>)
    ensures DeliverAll(s, evs + [ev]) == Deliver(DeliverAll(s, evs), ev)
    decreases |evs|
  {
    hide Deliver;
    if evs == [] {
      assert DeliverAll(s, [ev]) == DeliverAll(Deliver(s, ev), []);
    } else {
      assert (evs + [ev])[1..] == evs[1..] + [ev];
      DeliverLast(Deliver(s, evs[0]), evs[1..], ev);
    }
  }

  /** ~IODevice and then ~Device: the handle is closed if there is one. */
  ghost function DestructEndpoint<E>(s: Endpoint<E>): Endpoint<E> {
    Leave(s.(closed := s.closed + Current(s.handle)))
  }
}
