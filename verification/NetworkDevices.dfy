/** Network devices as objects: each owns a Device in the registry, and every call and
    ready event is proved to change it as EndpointModel says, to keep the registry
    coherent, and to leave every other device alone. */
module NetworkDevices {
  import opened Basics
  import opened RegistryModel
  import opened RegistryLaws
  import opened Registry
  import opened Sockets
  import opened EndpointModel

  // ------------------------------------------------------ on values first

  /** The part of an endpoint that is not in the registry. */
  datatype Fields = Fields(
    kind: Kind, published: bool, io: Queue<Payload>, net: Queue<Outgoing>, attempts: seq<Attempt>, session: Session)

  ghost function Seen<E, D>(w: World<E, D>, d: D, f: Fields): Endpoint<E>
    requires Known(w, d)
  {
    var ds := w.devices[d];
    Endpoint(f.kind, f.published, ds.engine, ds.handle, Entry(w, d), f.io, f.net, f.attempts, f.session,
             ds.taken, ds.closed)
  }

  /** fds are the descriptors the system may give to d: none of them is another
      device's, and d's own is among them. */
  ghost predicate Unshared<E, D>(w: World<E, D>, d: D, fds: set<int>)
    requires d in w.devices
  {
    && (w.devices[d].handle.Some? ==> w.devices[d].handle.value in fds)
    && forall e, h :: e in w.engines && h in fds && h in w.engines[e].mapping ==> w.engines[e].mapping[h] == d
  }

  ghost predicate Sound<E, D>(w: World<E, D>, d: D, fds: set<int>) {
    Coherent(w) && d in w.devices && Known(w, d) && Unshared(w, d, fds)
  }

  /** w1 comes from w by changes to d alone. */
  ghost predicate Moved<E, D>(w: World<E, D>, w1: World<E, D>, d: D, fds: set<int>) {
    Sound(w1, d, fds) && OthersSame(w, w1, d)
  }

  lemma MovedWhen<E, D>(w: World<E, D>, w1: World<E, D>, d: D, fds: set<int>)
    requires Sound(w, d, fds) && Coherent(w1) && OthersSame(w, w1, d)
    requires w1.devices[d].handle.Some? ==> w1.devices[d].handle.value in fds
    ensures Moved(w, w1, d, fds)
  {
  }

  lemma NotElsewhere<E, D>(w: World<E, D>, d: D, fds: set<int>, e: E)
    requires Sound(w, d, fds) && e in w.engines
    ensures !MappedElsewhere(w, e, w.devices[d].handle, d)
  {
    if w.devices[d].handle.Some? {
      var h: int := w.devices[d].handle.value;
      assert h in fds;
      assert h in w.engines[e].mapping ==> w.engines[e].mapping[h] == d;
    }
  }

  lemma MovedTransitive<E, D>(a: World<E, D>, b: World<E, D>, c: World<E, D>, d: D, fds: set<int>)
    requires Coherent(a) && Moved(a, b, d, fds) && Moved(b, c, d, fds)
    ensures Moved(a, c, d, fds)
  {
  }

  lemma MovedSelf<E, D>(w: World<E, D>, d: D, fds: set<int>)
    requires Sound(w, d, fds)
    ensures Moved(w, w, d, fds)
  {
  }

  lemma RequestSeen<E, D>(w: World<E, D>, d: D, fds: set<int>, f: Fields, i: Interest)
    requires Sound(w, d, fds)
    ensures var w1 := Request(w, d, i);
            Moved(w, w1, d, fds) && Seen(w1, d, f) == SetEntry(Seen(w, d, f), i)
  {
    RequestEntry(w, d, i);
    MovedWhen(w, Request(w, d, i), d, fds);
  }

  lemma DestroySeen<E, D>(w: World<E, D>, d: D, fds: set<int>, f: Fields)
    requires Sound(w, d, fds)
    ensures var w1 := DestroyHandle(w, d);
            Moved(w, w1, d, fds) && Seen(w1, d, f) == LoseHandle(Seen(w, d, f))
  {
    DestroyHandleEntry(w, d);
    MovedWhen(w, DestroyHandle(w, d), d, fds);
  }

  lemma NewHandleSeen<E, D>(w: World<E, D>, d: D, fds: set<int>, f: Fields, h: int)
    requires Sound(w, d, fds) && h in fds
    ensures var w1 := NewHandle(w, d, Some(h));
            Moved(w, w1, d, fds) && Seen(w1, d, f) == TakeHandle(Seen(w, d, f), h)
  {
    NewHandleEntry(w, d, h);
    MovedWhen(w, NewHandle(w, d, Some(h)), d, fds);
  }

  /** The world after an attempt to get a socket. */
  ghost function WithSocket<E, D>(w: World<E, D>, d: D, sock: Option<int>): World<E, D>
    requires Known(w, d)
  {
    if sock.Some? then NewHandle(w, d, sock) else w
  }

  lemma WithSocketSeen<E, D>(w: World<E, D>, d: D, fds: set<int>, f: Fields, sock: Option<int>)
    requires Sound(w, d, fds) && (sock.Some? ==> sock.value in fds)
    ensures var w1 := WithSocket(w, d, sock);
            && Moved(w, w1, d, fds)
            && Seen(w1, d, f) == if sock.Some? then TakeHandle(Seen(w, d, f), sock.value) else Seen(w, d, f)
  {
    if sock.Some? {
      NewHandleSeen(w, d, fds, f, sock.value);
    }
  }

  lemma RegisterSeen<E, D>(w: World<E, D>, d: D, fds: set<int>, f: Fields, e: E)
    requires Sound(w, d, fds) && e in w.engines
    ensures var w1 := Register(w, e, d);
            Moved(w, w1, d, fds) && Seen(w1, d, f) == Join(Seen(w, d, f), e)
  {
    NotElsewhere(w, d, fds, e);
    RegisterEntry(w, e, d);
    assert Agrees(e, w.engines[e], w.devices);
    if d !in w.engines[e].list {
      RegisterEffect(w, e, d);
    }
    MovedWhen(w, Register(w, e, d), d, fds);
  }

  lemma DeregisterSeen<E, D>(w: World<E, D>, d: D, fds: set<int>, f: Fields, e: E)
    requires Sound(w, d, fds) && e in w.engines
    ensures var w1 := Deregister(w, e, d);
            Moved(w, w1, d, fds) && Seen(w1, d, f) == Leave(Seen(w, d, f))
  {
    NotElsewhere(w, d, fds, e);
    DeregisterCoherentIff(w, e, d);
    DeloadEntry(w, d);
    DeloadKeeps(w, d);
    MovedWhen(w, Deload(w, d), d, fds);
  }

  // ------------------------------------------------------- as registry steps

  /** steps are API calls about d that meet their guards and lead from world w0 to w. */
  ghost predicate Tracked<E, D>(w0: World<E, D>, steps: seq<Step<E, D>>, w: World<E, D>, d: D) {
    && After(w0, steps, |steps|) == w && GuardedUpTo(w0, steps, |steps|)
    && forall s :: s in steps ==> s.d == d
  }

  lemma TrackStep<E, D>(w0: World<E, D>, steps: seq<Step<E, D>>, w: World<E, D>, d: D, s: Step<E, D>)
    requires Tracked(w0, steps, w, d) && s.d == d && Guard(w, s)
    ensures Tracked(w0, steps + [s], Apply(w, s), d)
  {
    hide Apply, Guard;
    AfterPrefix(w0, steps, [s], |steps|);
  }

  lemma TrackRequest<E, D>(w0: World<E, D>, steps: seq<Step<E, D>>, w: World<E, D>, d: D, i: Interest)
    requires Tracked(w0, steps, w, d) && Known(w, d)
    ensures Tracked(w0, steps + [DoRequest(d, i)], Request(w, d, i), d)
  {
    TrackStep(w0, steps, w, d, DoRequest(d, i));
  }

  lemma TrackDestroy<E, D>(w0: World<E, D>, steps: seq<Step<E, D>>, w: World<E, D>, d: D)
    requires Tracked(w0, steps, w, d) && Known(w, d)
    ensures Tracked(w0, steps + [DoDestroyHandle(d)], DestroyHandle(w, d), d)
  {
    TrackStep(w0, steps, w, d, DoDestroyHandle(d));
  }

  lemma TrackNewHandle<E, D>(w0: World<E, D>, steps: seq<Step<E, D>>, w: World<E, D>, d: D, fds: set<int>, h: int)
    requires Tracked(w0, steps, w, d) && Sound(w, d, fds) && h in fds
    ensures Tracked(w0, steps + [DoNewHandle(d, Some(h))], NewHandle(w, d, Some(h)), d)
  {
    assert HandleFits(w, d, Some(h));
    TrackStep(w0, steps, w, d, DoNewHandle(d, Some(h)));
  }

  lemma TrackRegister<E, D>(w0: World<E, D>, steps: seq<Step<E, D>>, w: World<E, D>, d: D, fds: set<int>, e: E)
    requires Tracked(w0, steps, w, d) && Sound(w, d, fds) && e in w.engines
    ensures Tracked(w0, steps + [DoRegister(e, d)], Register(w, e, d), d)
  {
    NotElsewhere(w, d, fds, e);
    TrackStep(w0, steps, w, d, DoRegister(e, d));
  }

  lemma TrackDeregister<E, D>(w0: World<E, D>, steps: seq<Step<E, D>>, w: World<E, D>, d: D, fds: set<int>, e: E)
    requires Tracked(w0, steps, w, d) && Sound(w, d, fds) && e in w.engines
    ensures Tracked(w0, steps + [DoDeregister(e, d)], Deregister(w, e, d), d)
  {
    NotElsewhere(w, d, fds, e);
    TrackStep(w0, steps, w, d, DoDeregister(e, d));
  }

  // ------------------------------------------------ what the inputs may name

  ghost predicate OpeningFits(how: Opening, fds: set<int>) {
    var sock := SocketOf(how);
    sock.Some? ==> sock.value in fds
  }

  /** The call and all it sets off acquire descriptors from fds and join engines from
      engines only. */
  ghost predicate CallFits<E>(c: Call<E>, fds: set<int>, engines: set<E>)
    decreases c, 0
  {
    && (c.Open? ==> OpeningFits(c.how, fds))
    && (c.Load? ==> c.engine in engines)
    && (c.SyncSend? ==> OutcomeFits(c.outcome, fds, engines))
  }

  ghost predicate OutcomeFits<E>(out: SendOutcome<E>, fds: set<int>, engines: set<E>)
    decreases out, 0
  {
    out.Raised? ==> OpeningFits(Connect(out.lookup), fds) && AllFit(out.handler, fds, engines)
  }

  ghost predicate AllFit<E>(cs: seq<Call<E>>, fds: set<int>, engines: set<E>)
    decreases cs, 0
  {
    cs != [] ==> CallFits(cs[0], fds, engines) && AllFit(cs[1..], fds, engines)
  }

  ghost predicate EventFits<E>(ev: Event<E>, fds: set<int>, engines: set<E>) {
    match ev
    case Api(c) => CallFits(c, fds, engines)
    case ReadyRead(_, handler) => AllFit(handler, fds, engines)
    case ReadyWrite(out) => OutcomeFits(out, fds, engines)
    case ReadyError(lookup) => OpeningFits(Connect(lookup), fds)
    case ReadyHangup(handler) => AllFit(handler, fds, engines)
    case ReadyPeerDisconnect(handler) => AllFit(handler, fds, engines)
  }

  lemma ViewAt(u: Universe, d: Device)
    requires d in u.devices
    ensures u.View().devices[d] == d.State()
  {
  }

  // --------------------------------------------------------------- the object

  class NetworkDevice {
    const kind: Kind
    const dev: Device
    var published: bool
    var ioQueue: seq<Payload>
    var netQueue: seq<Outgoing>
    var isConnected: bool
    ghost var ioAccepted: seq<Payload>
    ghost var netAccepted: seq<Outgoing>
    ghost var attempts: seq<Attempt>
    ghost var established: nat
    ghost var notified: nat
    ghost var dropped: nat
    ghost var origin: World<Engine, Device>
    ghost var steps: seq<Step<Engine, Device>>

    constructor (kind: Kind, dev: Device)
      ensures this.kind == kind && this.dev == dev
      ensures Own() == Fields(kind, false, Queue([], []), Queue([], []), [], Session(false, 0, 0, 0))
    {
      this.kind, this.dev := kind, dev;
      published, isConnected, ioQueue, netQueue := false, false, [], [];
      ioAccepted, netAccepted, attempts := [], [], [];
      established, notified, dropped := 0, 0, 0;
      origin, steps := World(map[], map[]), [];
    }

    ghost function Own(): Fields
      reads this
    {
      Fields(kind, published, Queue(ioQueue, ioAccepted), Queue(netQueue, netAccepted), attempts,
             Session(isConnected, established, notified, dropped))
    }

    /** steps are what this device did to the registry since the world was origin. */
    ghost predicate Valid(u: Universe, fds: set<int>)
      reads this, u.engines, u.devices
    {
      u.Closed() && Sound(u.View(), dev, fds) && Tracked(origin, steps, u.View(), dev)
    }

    ghost function State(u: Universe): Endpoint<Engine>
      requires Known(u.View(), dev)
      reads this, u.engines, u.devices
    {
      Seen(u.View(), dev, Own())
    }

    method RequestRead(ghost u: Universe, ghost fds: set<int>)
      requires Valid(u, fds)
      modifies this`steps, u.engines
      ensures u.Closed() && Moved(old(u.View()), u.View(), dev, fds)
      ensures Tracked(origin, steps, u.View(), dev) && origin == old(origin)
      ensures State(u) == SetEntry(old(State(u)), PollIn)
    {
      hide Tracked, Coherent, OthersSame, Entry, Unshared, Known, Universe.View;
      dev.RequestRead(u);
      steps := steps + [DoRequest(dev, PollIn)];
      TrackRequest(origin, old(steps), old(u.View()), dev, PollIn);
      RequestSeen(old(u.View()), dev, fds, Own(), PollIn);
    }

    method RequestWrite(ghost u: Universe, ghost fds: set<int>)
      requires Valid(u, fds)
      modifies this`steps, u.engines
      ensures u.Closed() && Moved(old(u.View()), u.View(), dev, fds)
      ensures Tracked(origin, steps, u.View(), dev) && origin == old(origin)
      ensures State(u) == SetEntry(old(State(u)), PollOut)
    {
      hide Tracked, Coherent, OthersSame, Entry, Unshared, Known, Universe.View;
      dev.RequestWrite(u);
      steps := steps + [DoRequest(dev, PollOut)];
      TrackRequest(origin, old(steps), old(u.View()), dev, PollOut);
      RequestSeen(old(u.View()), dev, fds, Own(), PollOut);
    }

    predicate DeviceIsReady()
      reads this, dev
    {
      if kind.Multicaster? then published && isConnected else dev.deviceHandle.Some?
    }

    method PushIo(m: Payload)
      modifies this
      ensures steps == old(steps) && origin == old(origin)
      ensures Own() == old(Own()).(io := old(Own()).io.Push(m))
    {
      ioQueue, ioAccepted := ioQueue + [m], ioAccepted + [m];
    }

    method PushNet(m: Outgoing)
      modifies this
      ensures steps == old(steps) && origin == old(origin)
      ensures Own() == old(Own()).(net := old(Own()).net.Push(m))
    {
      netQueue, netAccepted := netQueue + [m], netAccepted + [m];
    }

    /** A message goes to the system. */
    method Log(ghost a: Attempt)
      modifies this
      ensures steps == old(steps) && origin == old(origin)
      ensures Own() == old(Own()).(attempts := old(attempts) + [a])
    {
      attempts := attempts + [a];
    }

    method PopIo()
      modifies this
      ensures steps == old(steps) && origin == old(origin)
      ensures Own() == old(Own()).(io := old(Own()).io.Pop())
    {
      if ioQueue != [] {
        ioQueue := ioQueue[1..];
      }
    }

    method PopNet()
      modifies this
      ensures steps == old(steps) && origin == old(origin)
      ensures Own() == old(Own()).(net := old(Own()).net.Pop())
    {
      if netQueue != [] {
        netQueue := netQueue[1..];
      }
    }

    method AsyncSend(data: Option<Payload>, ghost u: Universe, ghost fds: set<int>) returns (code: ReturnCode)
      requires Valid(u, fds)
      modifies this, u.engines
      ensures u.Closed() && Moved(old(u.View()), u.View(), dev, fds)
      ensures Tracked(origin, steps, u.View(), dev) && origin == old(origin)
      ensures (State(u), code) == DoAsyncSend(old(State(u)), data)
    {
      hide Tracked, Coherent, OthersSame, Entry, Unshared, Known, Universe.View;
      MovedSelf(u.View(), dev, fds);
      ViewAt(u, dev);
      if dev.loadedEngine == null && !DeviceIsReady() {
        return NOK;
      }
      if data.None? {
        return NOK;
      }
      PushIo(data.value);
      assert State(u) == old(State(u)).(io := Own().io);
      RequestWrite(u, fds);
      return OK;
    }

    method SendTo(dest: HostAddr, data: Option<Payload>, ghost u: Universe, ghost fds: set<int>)
      returns (code: ReturnCode)
      requires Valid(u, fds)
      modifies this, u.engines
      ensures u.Closed() && Moved(old(u.View()), u.View(), dev, fds)
      ensures Tracked(origin, steps, u.View(), dev) && origin == old(origin)
      ensures (State(u), code) == DoSendTo(old(State(u)), dest, data)
    {
      hide Tracked, Coherent, OthersSame, Entry, Unshared, Known, Universe.View;
      MovedSelf(u.View(), dev, fds);
      ViewAt(u, dev);
      if dev.loadedEngine == null {
        return NOK;
      }
      if data.None? {
        return NOK;
      }
      PushNet(Outgoing(dest, data.value));
      assert State(u) == old(State(u)).(net := Own().net);
      RequestWrite(u, fds);
      return OK;
    }

    /** performSendTo; sent is whether the system takes the datagram. */
    method PerformSendTo(m: Outgoing, ghost queued: bool, sent: bool, ghost u: Universe, ghost fds: set<int>)
      returns (code: ReturnCode)
      requires Valid(u, fds)
      modifies this
      ensures u.Closed() && Moved(old(u.View()), u.View(), dev, fds)
      ensures Tracked(origin, steps, u.View(), dev) && origin == old(origin)
      ensures (State(u), code) == EndpointModel.PerformSendTo(old(State(u)), m, queued, sent)
    {
      hide Tracked, Coherent, OthersSame, Entry, Unshared, Known, Universe.View;
      MovedSelf(u.View(), dev, fds);
      ViewAt(u, dev);
      Log(Datagram(m, queued));
      return if dev.deviceHandle.Some? && sent then OK else NOK;
    }

    method Hangup(byPeer: bool)
      modifies this
      ensures steps == old(steps) && origin == old(origin)
      ensures Own() == old(Own()).(session := old(Own()).session.(
                connected := false,
                notified := old(notified) + (if byPeer then 1 else 0),
                dropped := old(dropped) + (if !byPeer && old(isConnected) then 1 else 0)))
    {
      if byPeer {
        notified := notified + 1;
      } else if isConnected {
        dropped := dropped + 1;
      }
      isConnected := false;
    }

    method Connected()
      modifies this
      ensures steps == old(steps) && origin == old(origin)
      ensures Own() == old(Own()).(session := old(Own()).session.(
                connected := true, established := old(established) + 1))
    {
      isConnected, established := true, established + 1;
    }

    method LoseDeviceHandle(ghost u: Universe, ghost fds: set<int>)
      requires Valid(u, fds)
      modifies this`steps, u.engines, dev
      ensures u.Closed() && Moved(old(u.View()), u.View(), dev, fds)
      ensures Tracked(origin, steps, u.View(), dev) && origin == old(origin)
      ensures State(u) == LoseHandle(old(State(u)))
    {
      hide Tracked, Coherent, OthersSame, Entry, Unshared, Known, Universe.View;
      dev.DestroyHandle(u);
      steps := steps + [DoDestroyHandle(dev)];
      TrackDestroy(origin, old(steps), old(u.View()), dev);
      DestroySeen(old(u.View()), dev, fds, Own());
    }

    method Disconnect(ghost u: Universe, ghost fds: set<int>)
      requires Valid(u, fds)
      modifies this, u.engines, dev
      ensures u.Closed() && Moved(old(u.View()), u.View(), dev, fds)
      ensures Tracked(origin, steps, u.View(), dev) && origin == old(origin)
      ensures State(u) == DoDisconnect(old(State(u)))
    {
      hide Tracked, Coherent, OthersSame, Entry, Unshared, Known, Universe.View;
      LoseDeviceHandle(u, fds);
      Hangup(false);
    }

    /** createAndConnectSocket, createAndBindSocket or socket(), and registerNewHandle. */
    method GetSocket(how: Opening, ghost u: Universe) returns (code: ReturnCode)
      requires dev in u.devices && u.Closed()
      modifies u.engines, dev
      ensures u.Closed() && u.View() == WithSocket(old(u.View()), dev, SocketOf(how))
      ensures code == if SocketOf(how).Some? then OK else NOK
    {
      hide NewHandle, Universe.View;
      ghost var left;
      match how
      case Connect(lookup) => code, left := CreateSocket(dev, lookup, false, u);
      case Bind(lookup) => code, left := CreateSocket(dev, lookup, true, u);
      case Initialise(sock) =>
        code := if sock.Some? then OK else NOK;
        if sock.Some? {
          dev.RegisterNewHandle(sock, u);
        }
    }

    /** The same, with what it means for this device. */
    method OpenSocket(how: Opening, ghost u: Universe, ghost fds: set<int>) returns (code: ReturnCode)
      requires Valid(u, fds) && OpeningFits(how, fds)
      modifies this`steps, u.engines, dev
      ensures u.Closed() && Moved(old(u.View()), u.View(), dev, fds)
      ensures Tracked(origin, steps, u.View(), dev) && origin == old(origin)
      ensures var sock := SocketOf(how);
              && code == (if sock.Some? then OK else NOK)
              && State(u) == if sock.Some? then TakeHandle(old(State(u)), sock.value) else old(State(u))
    {
      hide Tracked, Coherent, OthersSame, NewHandle, Entry, Unshared, Known, Universe.View, TakeHandle, SocketOf;
      code := GetSocket(how, u);
      WithSocketSeen(old(u.View()), dev, fds, Own(), SocketOf(how));
      if code == OK {
        steps := steps + [DoNewHandle(dev, SocketOf(how))];
        TrackNewHandle(origin, old(steps), old(u.View()), dev, fds, SocketOf(how).value);
      }
    }

    /** The rest of opening, on a device that has just been disconnected. */
    method Reopen(how: Opening, ghost u: Universe, ghost fds: set<int>) returns (code: ReturnCode)
      requires Valid(u, fds) && OpeningFits(how, fds)
      modifies this, u.engines, dev
      ensures u.Closed() && Moved(old(u.View()), u.View(), dev, fds)
      ensures Tracked(origin, steps, u.View(), dev) && origin == old(origin)
      ensures var sock, s := SocketOf(how), old(State(u));
              && code == (if sock.Some? then OK else NOK)
              && State(u) == if sock.None? then s
                             else TakeHandle(s, sock.value).(session := s.session.(
                               connected := true, established := s.session.established + 1))
    {
      hide Tracked, Coherent, OthersSame, Entry, Unshared, Known, Universe.View;
      code := OpenSocket(how, u, fds);
      if code == OK {
        Connected();
      }
    }

    /** connectToHost, bind and initialise. */
    method OpenWith(how: Opening, ghost u: Universe, ghost fds: set<int>) returns (code: ReturnCode)
      requires Valid(u, fds) && OpeningFits(how, fds)
      modifies this, u.engines, dev
      ensures u.Closed() && Moved(old(u.View()), u.View(), dev, fds)
      ensures Tracked(origin, steps, u.View(), dev) && origin == old(origin)
      ensures (State(u), code) == DoOpen(old(State(u)), SocketOf(how))
    {
      hide Tracked, Coherent, OthersSame, Entry, Unshared, Known, Universe.View;
      Disconnect(u, fds);
      ghost var mid := u.View();
      code := Reopen(how, u, fds);
      MovedTransitive(old(u.View()), mid, u.View(), dev, fds);
    }

    method PublishToGroup(valid: bool, ghost u: Universe, ghost fds: set<int>) returns (code: ReturnCode)
      requires Valid(u, fds)
      modifies this
      ensures u.Closed() && Moved(old(u.View()), u.View(), dev, fds)
      ensures Tracked(origin, steps, u.View(), dev) && origin == old(origin)
      ensures (State(u), code) == EndpointModel.Perform(old(State(u)), Publish(valid))
    {
      hide Tracked, Coherent, OthersSame, Entry, Unshared, Known, Universe.View;
      MovedSelf(u.View(), dev, fds);
      ViewAt(u, dev);
      if !kind.Multicaster? || !isConnected {
        return NOK;
      }
      published := valid;
      return if valid then OK else NOK;
    }

    /** Registering with engine e: from none, or from another engine. */
    method LoadInto(e: Engine, ghost u: Universe, ghost fds: set<int>)
      requires Valid(u, fds) && e in u.engines
      modifies this`steps, u.engines, dev
      ensures u.Closed() && Moved(old(u.View()), u.View(), dev, fds)
      ensures Tracked(origin, steps, u.View(), dev) && origin == old(origin)
      ensures State(u) == Join(old(State(u)), e)
    {
      hide Tracked, Coherent, OthersSame, Entry, Unshared, Known, Universe.View, Register;
      var _ := e.RegisterDevice(dev, u);
      steps := steps + [DoRegister(e, dev)];
      TrackRegister(origin, old(steps), old(u.View()), dev, fds, e);
      RegisterSeen(old(u.View()), dev, fds, Own(), e);
    }

    /** Deregistering from its engine, if it has one. */
    method UnloadFrom(ghost u: Universe, ghost fds: set<int>)
      requires Valid(u, fds)
      modifies this`steps, u.engines, dev
      ensures u.Closed() && Moved(old(u.View()), u.View(), dev, fds)
      ensures Tracked(origin, steps, u.View(), dev) && origin == old(origin)
      ensures State(u) == Leave(old(State(u)))
    {
      hide Tracked, Coherent, OthersSame, Unshared, Deregister, Known, Universe.View;
      if dev.loadedEngine != null {
        ghost var e := dev.loadedEngine;
        var _ := dev.loadedEngine.DeRegisterDevice(dev, u);
        steps := steps + [DoDeregister(e, dev)];
        TrackDeregister(origin, old(steps), old(u.View()), dev, fds, e);
        DeregisterSeen(old(u.View()), dev, fds, Own(), e);
      } else {
        MovedSelf(u.View(), dev, fds);
        ViewAt(u, dev);
      }
    }

    method Perform(c: Call<Engine>, ghost u: Universe, ghost fds: set<int>) returns (code: ReturnCode)
      requires Valid(u, fds) && CallFits(c, fds, u.engines)
      modifies this, u.engines, dev
      ensures u.Closed() && Moved(old(u.View()), u.View(), dev, fds)
      ensures Tracked(origin, steps, u.View(), dev) && origin == old(origin)
      ensures (State(u), code) == EndpointModel.Perform(old(State(u)), c)
      decreases c, 0
    {
      hide Tracked, Coherent, OthersSame, Entry, Unshared, Known, Universe.View;
      MovedSelf(u.View(), dev, fds);
      ViewAt(u, dev);
      match c
      case AsyncSend(data) => code := AsyncSend(data, u, fds);
      case SendTo(dest, data) => code := SendTo(dest, data, u, fds);
      case SyncSend(data, out) =>
        if data.None? || !DeviceIsReady() {
          return NOK;
        }
        code := PerformSyncSend(data.value, false, out, u, fds);
      case SyncSendTo(dest, data, sent) =>
        if data.None? {
          return NOK;
        }
        code := PerformSendTo(Outgoing(dest, data.value), false, sent, u, fds);
      case Open(how) =>
        if Offers(kind, how) {
          code := OpenWith(how, u, fds);
        } else {
          code := NOK;
        }
      case Disconnect =>
        Disconnect(u, fds);
        code := OK;
      case Publish(valid) => code := PublishToGroup(valid, u, fds);
      case Load(e) =>
        LoadInto(e, u, fds);
        code := OK;
      case Unload =>
        UnloadFrom(u, fds);
        code := OK;
    }

    /** The calls that a user's handler makes, one after the other. */
    method PerformAll(cs: seq<Call<Engine>>, ghost u: Universe, ghost fds: set<int>)
      requires Valid(u, fds) && AllFit(cs, fds, u.engines)
      modifies this, u.engines, dev
      ensures u.Closed() && Moved(old(u.View()), u.View(), dev, fds)
      ensures Tracked(origin, steps, u.View(), dev) && origin == old(origin)
      ensures State(u) == EndpointModel.PerformAll(old(State(u)), cs)
      decreases cs, 0
    {
      hide Tracked, Coherent, OthersSame, Entry, Unshared, Known, Universe.View, EndpointModel.Perform;
      MovedSelf(u.View(), dev, fds);
      ViewAt(u, dev);
      if cs != [] {
        var _ := Perform(cs[0], u, fds);
        ghost var mid := u.View();
        PerformAll(cs[1..], u, fds);
        MovedTransitive(old(u.View()), mid, u.View(), dev, fds);
      }
    }

    method LosePeer(ghost u: Universe, ghost fds: set<int>)
      requires Valid(u, fds)
      modifies this, u.engines, dev
      ensures u.Closed() && Moved(old(u.View()), u.View(), dev, fds)
      ensures Tracked(origin, steps, u.View(), dev) && origin == old(origin)
      ensures State(u) == PeerLost(old(State(u)))
    {
      hide Tracked, Coherent, OthersSame, Entry, Unshared, Known, Universe.View;
      LoseDeviceHandle(u, fds);
      Hangup(true);
    }

    method PeerDisconnected(handler: seq<Call<Engine>>, ghost u: Universe, ghost fds: set<int>)
      requires Valid(u, fds) && AllFit(handler, fds, u.engines)
      modifies this, u.engines, dev
      ensures u.Closed() && Moved(old(u.View()), u.View(), dev, fds)
      ensures Tracked(origin, steps, u.View(), dev) && origin == old(origin)
      ensures State(u) == EndpointModel.PeerDisconnected(old(State(u)), handler)
      decreases handler, 1
    {
      hide Tracked, Coherent, OthersSame, Entry, Unshared, Known, Universe.View, EndpointModel.PerformAll;
      LosePeer(u, fds);
      ghost var mid := u.View();
      PerformAll(handler, u, fds);
      MovedTransitive(old(u.View()), mid, u.View(), dev, fds);
    }

    /** The virtual readyError, readyHangup or readyPeerDisconnect, called from inside
        a synchronous send. */
    method Hook(out: SendOutcome<Engine>, ghost u: Universe, ghost fds: set<int>)
      requires Valid(u, fds) && out.Raised? && OutcomeFits(out, fds, u.engines)
      modifies this, u.engines, dev
      ensures u.Closed() && Moved(old(u.View()), u.View(), dev, fds)
      ensures Tracked(origin, steps, u.View(), dev) && origin == old(origin)
      ensures State(u) == EndpointModel.Hook(old(State(u)), out)
      decreases out, 0
    {
      hide Tracked, Coherent, OthersSame, Entry, Unshared, Known, Universe.View, EndpointModel.PeerDisconnected,
           DoOpen;
      MovedSelf(u.View(), dev, fds);
      ViewAt(u, dev);
      if out.event.ErrorRaised? {
        if kind.UdpClient? {
          var _ := OpenWith(Connect(out.lookup), u, fds);
        }
      } else if kind.TcpClient? {
        PeerDisconnected(out.handler, u, fds);
      }
    }

    method PerformSyncSend(m: Payload, ghost queued: bool, out: SendOutcome<Engine>, ghost u: Universe,
                           ghost fds: set<int>)
      returns (code: ReturnCode)
      requires Valid(u, fds) && OutcomeFits(out, fds, u.engines)
      modifies this, u.engines, dev
      ensures u.Closed() && Moved(old(u.View()), u.View(), dev, fds)
      ensures Tracked(origin, steps, u.View(), dev) && origin == old(origin)
      ensures (State(u), code) == EndpointModel.PerformSyncSend(old(State(u)), m, queued, out)
      decreases out, 1
    {
      hide Tracked, Coherent, OthersSame, Entry, Unshared, Known, Universe.View, EndpointModel.Hook;
      MovedSelf(u.View(), dev, fds);
      ViewAt(u, dev);
      Log(Stream(m, queued));
      assert State(u) == Logged(old(State(u)), Stream(m, queued));
      if dev.deviceHandle.None? {
        return NOK;
      }
      match out
      case PollFails => code := NOK;
      case WriteFails => code := NOK;
      case Wrote =>
        if !kind.Multicaster? {
          RequestRead(u, fds);
        }
        code := OK;
      case Raised(_, _, _) =>
        Hook(out, u, fds);
        code := NOK;
    }

    /** The front message has been handed over: drop it and ask for the next write event. */
    method DropFront(ghost u: Universe, ghost fds: set<int>)
      requires Valid(u, fds)
      modifies this, u.engines
      ensures u.Closed() && Moved(old(u.View()), u.View(), dev, fds)
      ensures Tracked(origin, steps, u.View(), dev) && origin == old(origin)
      ensures State(u) == SetEntry(old(State(u)).(io := old(State(u)).io.Pop()), PollOut)
    {
      hide Tracked, Coherent, OthersSame, Entry, Unshared, Known, Universe.View;
      PopIo();
      RequestWrite(u, fds);
    }

    method IoReadyWrite(out: SendOutcome<Engine>, ghost u: Universe, ghost fds: set<int>)
      requires Valid(u, fds) && OutcomeFits(out, fds, u.engines)
      modifies this, u.engines, dev
      ensures u.Closed() && Moved(old(u.View()), u.View(), dev, fds)
      ensures Tracked(origin, steps, u.View(), dev) && origin == old(origin)
      ensures State(u) == EndpointModel.IoReadyWrite(old(State(u)), out)
    {
      hide Tracked, Coherent, OthersSame, Entry, Unshared, Known, Universe.View, EndpointModel.PerformSyncSend;
      MovedSelf(u.View(), dev, fds);
      ViewAt(u, dev);
      if ioQueue == [] {
        RequestRead(u, fds);
        return;
      }
      if dev.deviceHandle.None? {
        return;
      }
      var _ := PerformSyncSend(ioQueue[0], true, out, u, fds);
      ghost var mid := u.View();
      DropFront(u, fds);
      MovedTransitive(old(u.View()), mid, u.View(), dev, fds);
    }

    method NetReadyWrite(out: SendOutcome<Engine>, ghost u: Universe, ghost fds: set<int>)
      requires Valid(u, fds) && OutcomeFits(out, fds, u.engines)
      modifies this, u.engines, dev
      ensures u.Closed() && Moved(old(u.View()), u.View(), dev, fds)
      ensures Tracked(origin, steps, u.View(), dev) && origin == old(origin)
      ensures State(u) == EndpointModel.NetReadyWrite(old(State(u)), out)
    {
      hide Tracked, Coherent, OthersSame, Entry, Unshared, Known, Universe.View, EndpointModel.IoReadyWrite;
      if netQueue == [] {
        IoReadyWrite(out, u, fds);
        return;
      }
      var _ := PerformSendTo(netQueue[0], true, out.Wrote?, u, fds);
      PopNet();
      RequestWrite(u, fds);
    }

    /** The readyWrite of the device's own kind. */
    method ReadyWrite(out: SendOutcome<Engine>, ghost u: Universe, ghost fds: set<int>)
      requires Valid(u, fds) && OutcomeFits(out, fds, u.engines)
      modifies this, u.engines, dev
      ensures u.Closed() && Moved(old(u.View()), u.View(), dev, fds)
      ensures Tracked(origin, steps, u.View(), dev) && origin == old(origin)
      ensures State(u) == DoReadyWrite(old(State(u)), out)
    {
      hide Tracked, Coherent, OthersSame, Entry, Unshared, Known, Universe.View, EndpointModel.NetReadyWrite;
      if !kind.Multicaster? || ioQueue == [] {
        NetReadyWrite(out, u, fds);
        return;
      }
      Log(Stream(ioQueue[0], true));
      DropFront(u, fds);
    }

    /** The readyRead of the device's own kind. */
    method ReadyRead(read: ReadOutcome, handler: seq<Call<Engine>>, ghost u: Universe, ghost fds: set<int>)
      requires Valid(u, fds) && AllFit(handler, fds, u.engines)
      modifies this, u.engines, dev
      ensures u.Closed() && Moved(old(u.View()), u.View(), dev, fds)
      ensures Tracked(origin, steps, u.View(), dev) && origin == old(origin)
      ensures State(u) == DoReadyRead(old(State(u)), read, handler)
    {
      hide Tracked, Coherent, OthersSame, Entry, Unshared, Known, Universe.View, EndpointModel.PerformAll,
           EndpointModel.PeerDisconnected;
      MovedSelf(u.View(), dev, fds);
      ViewAt(u, dev);
      if kind.TcpClient? && !read.ReadData? {
        PeerDisconnected(handler, u, fds);
      } else if !read.ReadFails? {
        PerformAll(handler, u, fds);
      }
    }

    /** A call, or a ready callback that the dispatch round makes because the device
        has an entry. */
    method Deliver(ev: Event<Engine>, ghost u: Universe, ghost fds: set<int>)
      requires Valid(u, fds) && EventFits(ev, fds, u.engines)
      requires !ev.Api? ==> State(u).entry.Some?
      modifies this, u.engines, dev
      ensures u.Closed() && Moved(old(u.View()), u.View(), dev, fds)
      ensures Tracked(origin, steps, u.View(), dev) && origin == old(origin)
      ensures State(u) == EndpointModel.Deliver(old(State(u)), ev)
    {
      hide Tracked, Coherent, OthersSame, Entry, Unshared, Known, Universe.View, EndpointModel.Perform,
           DoReadyRead, DoReadyWrite, DoOpen,
           EndpointModel.PeerDisconnected;
      MovedSelf(u.View(), dev, fds);
      ViewAt(u, dev);
      match ev
      case Api(c) => var _ := Perform(c, u, fds);
      case ReadyRead(read, handler) => ReadyRead(read, handler, u, fds);
      case ReadyWrite(out) => ReadyWrite(out, u, fds);
      case ReadyError(lookup) =>
        if kind.UdpClient? {
          var _ := OpenWith(Connect(lookup), u, fds);
        }
      case ReadyHangup(handler) =>
        if kind.TcpClient? {
          PeerDisconnected(handler, u, fds);
        }
      case ReadyPeerDisconnect(handler) =>
        if kind.TcpClient? {
          PeerDisconnected(handler, u, fds);
        }
    }

    /** Puts the device under the observation of a universe: from here on its steps are
        counted, and Valid holds. */
    ghost method Attach(u: Universe, fds: set<int>)
      requires u.Closed() && Sound(u.View(), dev, fds)
      modifies this`origin, this`steps
      ensures Valid(u, fds) && origin == u.View() && steps == []
      ensures State(u) == old(State(u))
    {
      origin, steps := u.View(), [];
    }

    /** What Deliver does to the registry is a sequence of guarded API calls about this
        device, so a ready event is a callback that a dispatch round allows. */
    method DeliverTracked(ev: Event<Engine>, ghost u: Universe, ghost fds: set<int>)
      returns (ghost made: seq<Step<Engine, Device>>)
      requires u.Closed() && Sound(u.View(), dev, fds) && EventFits(ev, fds, u.engines)
      requires !ev.Api? ==> State(u).entry.Some?
      modifies this, u.engines, dev
      ensures Valid(u, fds) && Moved(old(u.View()), u.View(), dev, fds)
      ensures State(u) == EndpointModel.Deliver(old(State(u)), ev)
      ensures u.View() == After(old(u.View()), made, |made|) && GuardedUpTo(old(u.View()), made, |made|)
      ensures forall s :: s in made ==> s.d == dev
    {
      hide Coherent, OthersSame, Entry, Unshared, Known, Universe.View, EndpointModel.Deliver, EventFits;
      Attach(u, fds);
      Deliver(ev, u, fds);
      made := steps;
    }
  }
}
