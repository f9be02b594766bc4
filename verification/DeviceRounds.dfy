/** A dispatch round over network devices as objects: the engine calls them, they act on
    the registry through their own calls, and the two sides are proved to fit together. */
module DeviceRounds {
  import opened Basics
  import opened RegistryModel
  import opened RegistryLaws
  import opened Registry
  import Dispatch
  import opened DispatchLaws
  import opened Sockets
  import opened EndpointModel
  import opened EndpointLaws
  import opened EndpointSession
  import opened NetworkDevices

  // ------------------------------------------------------------- on values

  type Step = RegistryLaws.Step<Engine, Device>
  type Made = Dispatch.Call<Engine, Device>
  type Before = map<Device, Endpoint<Engine>>

  /** What the system and the user's handler do when a descriptor is served. */
  datatype Service = Service(
    read: ReadOutcome, handler: seq<Call<Engine>>, outcome: SendOutcome<Engine>, lookup: Lookup)

  /** The device event that a callback of this class is; readyInvalidRequest only logs. */
  function EventOf(k: Dispatch.Kind, s: Service): Option<Event<Engine>> {
    match k
    case ReadyRead => Some(EndpointModel.ReadyRead(s.read, s.handler))
    case ReadyWrite => Some(EndpointModel.ReadyWrite(s.outcome))
    case ReadyError => Some(EndpointModel.ReadyError(s.lookup))
    case ReadyHangup => Some(EndpointModel.ReadyHangup(s.handler))
    case ReadyInvalid => None
    case ReadyPeerGone => Some(EndpointModel.ReadyPeerDisconnect(s.handler))
  }

  /** A device that is served once. */
  ghost function Once(s: Endpoint<Engine>, k: Dispatch.Kind, service: Service): Endpoint<Engine> {
    var ev := EventOf(k, service);
    if ev.Some? then Deliver(s, ev.value) else s
  }

  /** What each of the six callbacks is to a polled device. */
  lemma OnceEffect(s: Endpoint<Engine>, k: Dispatch.Kind, service: Service)
    requires s.entry.Some?
    ensures Once(s, k, service) ==
            match k
            case ReadyRead => DoReadyRead(s, service.read, service.handler)
            case ReadyWrite => DoReadyWrite(s, service.outcome)
            case ReadyError => if s.kind.UdpClient? then Perform(s, Open(Connect(service.lookup))).0 else s
            case ReadyHangup => if s.kind.TcpClient? then PeerDisconnected(s, service.handler) else s
            case ReadyInvalid => s
            case ReadyPeerGone => if s.kind.TcpClient? then PeerDisconnected(s, service.handler) else s
  {
    hide PeerDisconnected, PerformAll, DoReadyWrite, DoReadyRead, DoOpen;
  }

  /** Device d before turn n of a round: it has had its own event, if its turn was among
      the first n, and is else as it was. */
  ghost function StateAt(was: Before, w: World<Engine, Device>, e: Engine, turns: seq<Dispatch.Turn>,
                         env: int -> Service, n: nat, d: Device): Endpoint<Engine>
    requires Polled(w, e, turns) && n <= |turns| && d in was
  {
    if n == 0 then was[d]
    else if DeviceOf(w, e, turns, n - 1) == d then Once(was[d], turns[n - 1].0, env(turns[n - 1].1))
    else StateAt(was, w, e, turns, env, n - 1, d)
  }

  /** What the system owes: while descriptor fd is served it gives out numbers from
      fds(fd) only, and none of these is at that moment the handle of another polled
      device.  A number that an earlier callback has closed may be given out again. */
  ghost predicate TurnFits(was: Before, w: World<Engine, Device>, e: Engine, turns: seq<Dispatch.Turn>,
                           env: int -> Service, fds: int -> set<int>, engines: set<Engine>, n: nat)
    requires Polled(w, e, turns) && n < |turns|
  {
    var fd, ev := turns[n].1, EventOf(turns[n].0, env(turns[n].1));
    && fd in fds(fd) && (ev.Some? ==> EventFits(ev.value, fds(fd), engines))
    && forall o :: o in was && o != DeviceOf(w, e, turns, n) ==>
         var s := StateAt(was, w, e, turns, env, n, o);
         s.engine.Some? && s.handle.Some? ==> s.handle.value !in fds(fd)
  }

  ghost predicate RoundFits(was: Before, w: World<Engine, Device>, e: Engine, turns: seq<Dispatch.Turn>,
                            env: int -> Service, fds: int -> set<int>, engines: set<Engine>)
    requires Polled(w, e, turns)
  {
    forall n: nat :: n < |turns| ==> TurnFits(was, w, e, turns, env, fds, engines, n)
  }

  lemma {:induction false} StateAtOwn(was: Before, w: World<Engine, Device>, e: Engine, turns: seq<Dispatch.Turn>,
                                      env: int -> Service, n: nat, i: nat)
    requires Coherent(w) && Polled(w, e, turns) && i < n <= |turns| && DeviceOf(w, e, turns, i) in was
    ensures var d := DeviceOf(w, e, turns, i);
            StateAt(was, w, e, turns, env, n, d) == Once(was[d], turns[i].0, env(turns[i].1))
  {
    hide Coherent, Polled, Once;
    if i < n - 1 {
      if DeviceOf(w, e, turns, n - 1) == DeviceOf(w, e, turns, i) {
        DevicesDistinct(w, e, turns, i, n - 1);
      }
      StateAtOwn(was, w, e, turns, env, n - 1, i);
    }
  }

  lemma {:induction false} StateAtOther(was: Before, w: World<Engine, Device>, e: Engine, turns: seq<Dispatch.Turn>,
                                        env: int -> Service, n: nat, d: Device)
    requires Polled(w, e, turns) && n <= |turns| && d in was
    requires forall i :: 0 <= i < n ==> DeviceOf(w, e, turns, i) != d
    ensures StateAt(was, w, e, turns, env, n, d) == was[d]
  {
    hide Polled, Once, DeviceOf;
    if n > 0 {
      StateAtOther(was, w, e, turns, env, n - 1, d);
    }
  }

  /** Before its turn a device is as poll() saw it. */
  lemma StateAtTurn(was: Before, w: World<Engine, Device>, e: Engine, turns: seq<Dispatch.Turn>,
                    env: int -> Service, n: nat)
    requires Coherent(w) && Polled(w, e, turns) && n < |turns| && DeviceOf(w, e, turns, n) in was
    ensures var d := DeviceOf(w, e, turns, n); StateAt(was, w, e, turns, env, n, d) == was[d]
  {
    hide Coherent, Polled;
    forall i | 0 <= i < n ensures DeviceOf(w, e, turns, i) != DeviceOf(w, e, turns, n) {
      if DeviceOf(w, e, turns, i) == DeviceOf(w, e, turns, n) {
        DevicesDistinct(w, e, turns, i, n);
      }
    }
    StateAtOther(was, w, e, turns, env, n, DeviceOf(w, e, turns, n));
  }

  /** A device may open numbers that no other polled device has. */
  lemma FreshSound(w: World<Engine, Device>, d: Device, fds: set<int>)
    requires Coherent(w) && d in w.devices
    requires w.devices[d].handle.Some? ==> w.devices[d].handle.value in fds
    requires forall o :: o in w.devices && o != d && w.devices[o].engine.Some? && w.devices[o].handle.Some? ==>
               w.devices[o].handle.value !in fds
    ensures Sound(w, d, fds)
  {
    forall e, h | e in w.engines && h in fds && h in w.engines[e].mapping ensures w.engines[e].mapping[h] == d {
      assert Agrees(e, w.engines[e], w.devices);
      var o := w.engines[e].mapping[h];
      assert o in w.devices && w.devices[o].engine == Some(e) && w.devices[o].handle == Some(h);
    }
  }

  /** The rest of a script is of no account for the calls made so far. */
  lemma {:induction false} RoundScript(
    w: World<Engine, Device>, e: Engine, turns: seq<Dispatch.Turn>, n: nat, script: seq<seq<Step>>,
    more: seq<seq<Step>>)
    requires n <= |turns| && |Dispatch.Round(w, e, turns, n, script).calls| <= |script|
    ensures Dispatch.Round(w, e, turns, n, script + more) == Dispatch.Round(w, e, turns, n, script)
  {
    hide After;
    if n > 0 {
      RoundScript(w, e, turns, n - 1, script, more);
    }
  }

  lemma GuardedScript(
    w: World<Engine, Device>, e: Engine, turns: seq<Dispatch.Turn>, n: nat, script: seq<seq<Step>>,
    more: seq<seq<Step>>)
    requires n <= |turns| && |Dispatch.Round(w, e, turns, n, script).calls| <= |script|
    requires Dispatch.RoundGuarded(w, e, turns, n, script)
    ensures Dispatch.RoundGuarded(w, e, turns, n, script + more)
  {
    hide Dispatch.Round, GuardedUpTo;
    RoundScript(w, e, turns, n, script, more);
  }

  /** A turn whose callback makes these guarded steps, after a round that made so many
      calls as the script has entries. */
  lemma NextTurn(
    w: World<Engine, Device>, e: Engine, turns: seq<Dispatch.Turn>, n: nat, script: seq<seq<Step>>, made: seq<Step>)
    requires n < |turns| && |Dispatch.Round(w, e, turns, n, script).calls| == |script|
    requires Dispatch.RoundGuarded(w, e, turns, n, script)
    requires var r := Dispatch.Round(w, e, turns, n, script);
             && e in r.world.engines && turns[n].1 in r.world.engines[e].mapping
             && GuardedUpTo(r.world, made, |made|)
    ensures var r := Dispatch.Round(w, e, turns, n, script);
            && Dispatch.Round(w, e, turns, n + 1, script + [made]) ==
               Dispatch.RoundState(
                 After(r.world, made, |made|),
                 r.calls + [Dispatch.Call(turns[n].0, turns[n].1, r.world.engines[e].mapping[turns[n].1], r.world)])
            && Dispatch.RoundGuarded(w, e, turns, n + 1, script + [made])
  {
    hide After, GuardedUpTo;
    RoundScript(w, e, turns, n, script, [made]);
    GuardedScript(w, e, turns, n, script, [made]);
    assert Dispatch.ScriptAt(script + [made], |script|) == made;
  }

  // ------------------------------------------------------------ on objects

  type Fleet = map<Device, NetworkDevice>

  ghost predicate Manned(u: Universe, nets: Fleet)
    reads u.engines, u.devices
  {
    && u.Closed() && Coherent(u.View()) && nets.Keys == u.devices
    && forall d :: d in nets ==> nets[d].dev == d && Known(u.View(), d)
  }

  ghost function States(u: Universe, nets: Fleet): (r: Before)
    requires Manned(u, nets)
    reads u.engines, u.devices, nets.Values
    ensures r.Keys == nets.Keys && forall d :: d in nets ==> r[d] == nets[d].State(u)
  {
    map d | d in nets :: nets[d].State(u)
  }

  /** What one device does leaves what is seen of the others as it is. */
  lemma OthersSeen<E, D>(w: World<E, D>, w1: World<E, D>, d: D, o: D, f: Fields)
    requires OthersSame(w, w1, d) && o in w.devices && o != d && Known(w, o)
    ensures Known(w1, o) && Seen(w1, o, f) == Seen(w, o, f)
  {
  }

  lemma OthersKnown<E, D>(w: World<E, D>, w1: World<E, D>, d: D, fds: set<int>)
    requires Moved(w, w1, d, fds)
    ensures Coherent(w1) && w1.devices.Keys == w.devices.Keys
    ensures forall o :: o in w1.devices ==> Known(w1, o)
  {
  }

  /** One callback on one device. */
  method CallDevice(d: Device, ev: Event<Engine>, nets: Fleet, ghost u: Universe, ghost fds: set<int>)
    returns (ghost made: seq<Step>)
    requires Manned(u, nets) && d in nets && !ev.Api? && Sound(u.View(), d, fds)
    requires Entry(u.View(), d).Some? && EventFits(ev, fds, u.engines)
    modifies nets[d], u.engines, d
    ensures Manned(u, nets)
    ensures u.View() == After(old(u.View()), made, |made|) && GuardedUpTo(old(u.View()), made, |made|)
    ensures forall s :: s in made ==> s.d == d
    ensures forall o :: o in nets ==>
              nets[o].State(u) == if o == d then Deliver(old(nets[d].State(u)), ev) else old(nets[o].State(u))
  {
    hide Coherent, Entry, Unshared, Universe.View, EndpointModel.Deliver, EventFits, OthersSame, Known, Sound;
    made := nets[d].DeliverTracked(ev, u, fds);
    OthersKnown(old(u.View()), u.View(), d, fds);
    forall o | o in nets && o != d ensures nets[o].State(u) == old(nets[o].State(u)) {
      assert nets[o] != nets[d] && nets[o].Own() == old(nets[o].Own());
      OthersSeen(old(u.View()), u.View(), d, o, nets[o].Own());
    }
  }

  lemma KeepsOneMore(calls: seq<Made>, c: Made, script: seq<seq<Step>>, made: seq<Step>)
    requires |script| == |calls| && KeepsToItself(calls, script) && forall s :: s in made ==> s.d == c.device
    ensures KeepsToItself(calls + [c], script + [made])
  {
  }

  /** World w1 is where n turns of a round with this script lead from w, with these calls;
      every step met its guard and was about the device called. */
  ghost predicate Along(w: World<Engine, Device>, e: Engine, turns: seq<Dispatch.Turn>, n: nat,
                        script: seq<seq<Step>>, calls: seq<Made>, w1: World<Engine, Device>)
  {
    && n <= |turns| && |script| == |calls|
    && Dispatch.RoundState(w1, calls) == Dispatch.Round(w, e, turns, n, script)
    && Dispatch.RoundGuarded(w, e, turns, n, script) && KeepsToItself(calls, script)
  }

  lemma AlongNext(w: World<Engine, Device>, e: Engine, turns: seq<Dispatch.Turn>, n: nat, script: seq<seq<Step>>,
                  calls: seq<Made>, w1: World<Engine, Device>, d: Device, made: seq<Step>)
    requires n < |turns| && Along(w, e, turns, n, script, calls, w1)
    requires e in w1.engines && turns[n].1 in w1.engines[e].mapping && w1.engines[e].mapping[turns[n].1] == d
    requires GuardedUpTo(w1, made, |made|) && forall s :: s in made ==> s.d == d
    ensures Along(w, e, turns, n + 1, script + [made], calls + [Dispatch.Call(turns[n].0, turns[n].1, d, w1)],
                  After(w1, made, |made|))
  {
    hide Dispatch.Round, Dispatch.RoundGuarded, After, GuardedUpTo, KeepsToItself;
    NextTurn(w, e, turns, n, script, made);
    KeepsOneMore(calls, Dispatch.Call(turns[n].0, turns[n].1, d, w1), script, made);
  }

  /** After the first n turns of a round that began in world w with the devices as in
      was: the registry and the devices are where the round says. */
  ghost predicate InRound(u: Universe, nets: Fleet, w: World<Engine, Device>, e: Engine, turns: seq<Dispatch.Turn>,
                          n: nat, env: int -> Service, was: Before, script: seq<seq<Step>>, calls: seq<Made>)
    requires Polled(w, e, turns)
    reads u.engines, u.devices, nets.Values
  {
    && n <= |turns| && Manned(u, nets) && was.Keys == nets.Keys
    && Along(w, e, turns, n, script, calls, u.View())
    && forall d :: d in nets ==> nets[d].State(u) == StateAt(was, w, e, turns, env, n, d)
  }

  lemma EngineAt(u: Universe, e: Engine)
    requires e in u.engines
    ensures u.View().engines[e].mapping == e.deviceMapping && u.View().engines[e].poll == e.pollDevices
  {
  }

  lemma NothingDone(w: World<Engine, Device>)
    ensures After(w, [], 0) == w && GuardedUpTo(w, [], 0)
  {
  }

  /** Where turn n finds its device: mapped, polled, as poll() left it, and with numbers
      to open that nobody else has. */
  lemma TurnReady(u: Universe, nets: Fleet, w: World<Engine, Device>, e: Engine, turns: seq<Dispatch.Turn>, n: nat,
                  env: int -> Service, fds: int -> set<int>, was: Before, script: seq<seq<Step>>, calls: seq<Made>)
    requires Coherent(w) && Polled(w, e, turns) && n < |turns| && e in u.engines
    requires InRound(u, nets, w, e, turns, n, env, was, script, calls)
    requires TurnFits(was, w, e, turns, env, fds, u.engines, n)
    ensures var fd, d := turns[n].1, DeviceOf(w, e, turns, n);
            && fd in e.deviceMapping && e.deviceMapping[fd] == d && d in nets
            && Sound(u.View(), d, fds(fd)) && Entry(u.View(), d).Some?
            && nets[d].State(u) == was[d]
  {
    hide Coherent, Polled, Dispatch.Round, Dispatch.RoundGuarded, EventFits, Sound, Universe.View;
    var fd, d := turns[n].1, DeviceOf(w, e, turns, n);
    EngineAt(u, e);
    OwnCallbacksServeAll(w, e, turns, n, script);
    WaitingMapped(w, u.View(), e, turns, n);
    OwnerIff(u.View(), d, e, fd);
    EntryIff(u.View(), d);
    StateAtTurn(was, w, e, turns, env, n);
    FreshSound(u.View(), d, fds(fd));
  }

  /** One callback, of whatever class. */
  method ServeDevice(d: Device, kind: Dispatch.Kind, service: Service, nets: Fleet, ghost u: Universe,
                     ghost fds: set<int>)
    returns (ghost made: seq<Step>)
    requires Manned(u, nets) && d in nets && Sound(u.View(), d, fds) && Entry(u.View(), d).Some?
    requires EventOf(kind, service).Some? ==> EventFits(EventOf(kind, service).value, fds, u.engines)
    modifies nets[d], u.engines, d
    ensures Manned(u, nets)
    ensures u.View() == After(old(u.View()), made, |made|) && GuardedUpTo(old(u.View()), made, |made|)
    ensures forall s :: s in made ==> s.d == d
    ensures forall o :: o in nets ==>
              nets[o].State(u) == if o == d then Once(old(nets[d].State(u)), kind, service) else old(nets[o].State(u))
  {
    hide Coherent, EventFits, Sound, Universe.View, Deliver, After, GuardedUpTo, Entry, Known;
    var ev := EventOf(kind, service);
    made := [];
    if ev.Some? {
      made := CallDevice(d, ev.value, nets, u, fds);
    } else {
      NothingDone(u.View());
    }
  }

  method TakeTurn(e: Engine, turns: seq<Dispatch.Turn>, n: nat, env: int -> Service, nets: Fleet, ghost u: Universe,
                  ghost fds: int -> set<int>, ghost w: World<Engine, Device>, ghost was: Before,
                  ghost script: seq<seq<Step>>, ghost calls: seq<Made>)
    returns (ghost script': seq<seq<Step>>, ghost calls': seq<Made>)
    requires Coherent(w) && Polled(w, e, turns) && n < |turns| && e in u.engines
    requires InRound(u, nets, w, e, turns, n, env, was, script, calls)
    requires TurnFits(was, w, e, turns, env, fds, u.engines, n)
    modifies nets.Values, u.engines, u.devices
    ensures InRound(u, nets, w, e, turns, n + 1, env, was, script', calls')
  {
    hide Coherent, Polled, Along, EventFits, Sound, Universe.View, Once, After, GuardedUpTo, Entry, Known, DeviceOf;
    script', calls' := script, calls;
    var kind, fd := turns[n].0, turns[n].1;
    TurnReady(u, nets, w, e, turns, n, env, fds, was, script, calls);
    if fd in e.deviceMapping {
      var d := e.deviceMapping[fd];
      ghost var before := u.View();
      EngineAt(u, e);
      ghost var made := ServeDevice(d, kind, env(fd), nets, u, fds(fd));
      AlongNext(w, e, turns, n, script, calls, before, d, made);
      script', calls' := script + [made], calls + [Dispatch.Call(kind, fd, d, before)];
    }
  }

  lemma StartOfRound(w: World<Engine, Device>, e: Engine, turns: seq<Dispatch.Turn>)
    ensures Dispatch.Round(w, e, turns, 0, []) == Dispatch.RoundState(w, [])
    ensures Dispatch.RoundGuarded(w, e, turns, 0, [])
    ensures KeepsToItself<Engine, Device>([], [])
  {
  }

  /** The callbacks of a round, in the order of its schedule. */
  method ServeTurns(e: Engine, turns: seq<Dispatch.Turn>, env: int -> Service, nets: Fleet, ghost u: Universe,
                    ghost fds: int -> set<int>)
    returns (ghost script: seq<seq<Step>>, ghost calls: seq<Made>)
    requires Manned(u, nets) && e in u.engines && Polled(u.View(), e, turns)
    requires RoundFits(States(u, nets), u.View(), e, turns, env, fds, u.engines)
    modifies nets.Values, u.engines, u.devices
    ensures InRound(u, nets, old(u.View()), e, turns, |turns|, env, old(States(u, nets)), script, calls)
  {
    hide Coherent, Polled, Dispatch.Round, Dispatch.RoundGuarded, Universe.View, KeepsToItself, TurnFits, Known;
    script, calls := [], [];
    ghost var w, was := u.View(), States(u, nets);
    StartOfRound(w, e, turns);
    var i := 0;
    while i < |turns|
      invariant InRound(u, nets, w, e, turns, i, env, was, script, calls)
    {
      script, calls := TakeTurn(e, turns, i, env, nets, u, fds, w, was, script, calls);
      i := i + 1;
    }
  }

  // -------------------------------------------------------- what a round does

  /** Entry k of the poll vector was reported ready, and leads to device d. */
  ghost predicate ReadyEntry(w: World<Engine, Device>, e: Engine, revents: seq<Dispatch.Events>, k: nat, d: Device)
    requires e in w.engines && |w.engines[e].poll| == |revents|
  {
    && k < |revents| && Dispatch.Classify(revents[k]).Some?
    && Owner(w, e, w.engines[e].poll[k].fd) == Some(d)
  }

  ghost predicate IsReady(w: World<Engine, Device>, e: Engine, revents: seq<Dispatch.Events>, d: Device)
    requires e in w.engines && |w.engines[e].poll| == |revents|
  {
    exists k: nat :: ReadyEntry(w, e, revents, k, d)
  }

  /** s1 is what a round makes of a device d that was s: served once if it was reported
      ready, by the event of its own revents, and untouched if not. */
  ghost predicate RightlyServed(w: World<Engine, Device>, e: Engine, revents: seq<Dispatch.Events>,
                                env: int -> Service, d: Device, s: Endpoint<Engine>, s1: Endpoint<Engine>)
    requires e in w.engines && |w.engines[e].poll| == |revents|
  {
    && (forall k: nat :: ReadyEntry(w, e, revents, k, d) ==>
          s1 == Once(s, Dispatch.Classify(revents[k]).value, env(w.engines[e].poll[k].fd)))
    && (!IsReady(w, e, revents, d) ==> s1 == s)
  }

  /** What the revents of its entry make of a polled device: it reads on POLLIN alone,
      writes on POLLOUT alone; on an error a UDP client reconnects; on a hangup without an
      error a TCP client loses its connection; and nothing else happens to it. */
  ghost predicate ServedBy(revents: Dispatch.Events, service: Service, s: Endpoint<Engine>, s1: Endpoint<Engine>) {
    var err, hup := revents & Dispatch.POLLERR != 0, revents & Dispatch.POLLHUP != 0;
    && (revents == Dispatch.POLLIN ==> s1 == DoReadyRead(s, service.read, service.handler))
    && (revents == Dispatch.POLLOUT ==> s1 == DoReadyWrite(s, service.outcome))
    && (err ==> s1 == if s.kind.UdpClient? then Perform(s, Open(Connect(service.lookup))).0 else s)
    && (!err && hup ==> s1 == if s.kind.TcpClient? then PeerDisconnected(s, service.handler) else s)
    && (!err && !hup && revents & Dispatch.POLLNVAL != 0 ==> s1 == s)
    && (revents == 0 ==> s1 == s)
  }

  lemma OnceServes(s: Endpoint<Engine>, revents: Dispatch.Events, service: Service)
    requires s.entry.Some?
    ensures var k := Dispatch.Classify(revents);
            ServedBy(revents, service, s, if k.Some? then Once(s, k.value, service) else s)
  {
    hide PeerDisconnected, PerformAll, DoReadyWrite, DoReadyRead, Perform, Once;
    if Dispatch.Classify(revents).Some? {
      OnceEffect(s, Dispatch.Classify(revents).value, service);
    }
  }

  /** A device has one entry, so what its revents say is what happens to it. */
  lemma RightlyServedBy(w: World<Engine, Device>, e: Engine, revents: seq<Dispatch.Events>, env: int -> Service,
                        k: nat, d: Device, s: Endpoint<Engine>, s1: Endpoint<Engine>)
    requires Coherent(w) && e in w.engines && |w.engines[e].poll| == |revents|
    requires RightlyServed(w, e, revents, env, d, s, s1) && s.entry.Some?
    requires k < |revents| && Owner(w, e, w.engines[e].poll[k].fd) == Some(d)
    ensures ServedBy(revents[k], env(w.engines[e].poll[k].fd), s, s1)
  {
    hide Once, ServedBy, Dispatch.Classify;
    OnceServes(s, revents[k], env(w.engines[e].poll[k].fd));
    if Dispatch.Classify(revents[k]).Some? {
      assert ReadyEntry(w, e, revents, k, d);
    } else {
      assert Agrees(e, w.engines[e], w.devices);
    }
  }

  /** A device that the poll vector leads to is polled. */
  lemma MappedPolled(w: World<Engine, Device>, e: Engine, fd: int, d: Device)
    requires Coherent(w) && e in w.engines && Owner(w, e, fd) == Some(d)
    ensures Known(w, d) && Entry(w, d).Some?
  {
    OwnerIff(w, d, e, fd);
    EntryIff(w, d);
  }

  /** The turns of a round are its ready entries. */
  lemma TurnsAreReady(w: World<Engine, Device>, e: Engine, revents: seq<Dispatch.Events>)
    requires Coherent(w) && e in w.engines && |w.engines[e].poll| == |revents|
    ensures var poll := w.engines[e].poll;
            var turns := Dispatch.Schedule(Dispatch.FullScan(poll, revents, |revents|));
            && Polled(w, e, turns)
            && (forall i :: 0 <= i < |turns| ==> IsReady(w, e, revents, DeviceOf(w, e, turns, i)))
            && forall k: nat, d :: ReadyEntry(w, e, revents, k, d) ==>
                 exists i :: 0 <= i < |turns| && turns[i] == (Dispatch.Classify(revents[k]).value, poll[k].fd)
  {
    hide Dispatch.Schedule, Dispatch.FullScan, Dispatch.Classify, Coherent;
    var poll := w.engines[e].poll;
    var turns := Dispatch.Schedule(Dispatch.FullScan(poll, revents, |revents|));
    SchedulePolled(w, e, revents);
    assert Agrees(e, w.engines[e], w.devices) by { CoherentAgrees(w, e); }
    ScheduleDistinct(poll, revents);
    ScheduleComplete(poll, revents);
    forall i | 0 <= i < |turns| ensures IsReady(w, e, revents, DeviceOf(w, e, turns, i)) {
      assert turns[i] in turns;
      var k :| 0 <= k < |poll| && poll[k].fd == turns[i].1 && Dispatch.Classify(revents[k]) == Some(turns[i].0);
      assert ReadyEntry(w, e, revents, k, DeviceOf(w, e, turns, i));
    }
    forall k: nat, d | ReadyEntry(w, e, revents, k, d)
      ensures exists i :: 0 <= i < |turns| && turns[i] == (Dispatch.Classify(revents[k]).value, poll[k].fd)
    {
      assert (Dispatch.Classify(revents[k]).value, poll[k].fd) in turns;
    }
  }

  lemma CoherentAgrees<E, D>(w: World<E, D>, e: E)
    requires Coherent(w) && e in w.engines
    ensures Agrees(e, w.engines[e], w.devices)
  {
  }

  lemma RoundServes(was: Before, w: World<Engine, Device>, e: Engine, revents: seq<Dispatch.Events>,
                    env: int -> Service, d: Device)
    requires Coherent(w) && e in w.engines && |w.engines[e].poll| == |revents| && d in was
    requires var turns := Dispatch.Schedule(Dispatch.FullScan(w.engines[e].poll, revents, |revents|));
             Polled(w, e, turns)
    ensures var turns := Dispatch.Schedule(Dispatch.FullScan(w.engines[e].poll, revents, |revents|));
            RightlyServed(w, e, revents, env, d, was[d], StateAt(was, w, e, turns, env, |turns|, d))
  {
    hide Dispatch.Schedule, Dispatch.FullScan, Dispatch.Classify, Coherent, Polled, Once, IsReady;
    var poll := w.engines[e].poll;
    var turns := Dispatch.Schedule(Dispatch.FullScan(poll, revents, |revents|));
    TurnsAreReady(w, e, revents);
    forall k: nat | ReadyEntry(w, e, revents, k, d)
      ensures StateAt(was, w, e, turns, env, |turns|, d)
              == Once(was[d], Dispatch.Classify(revents[k]).value, env(poll[k].fd))
    {
      var i :| 0 <= i < |turns| && turns[i] == (Dispatch.Classify(revents[k]).value, poll[k].fd);
      assert DeviceOf(w, e, turns, i) == d;
      StateAtOwn(was, w, e, turns, env, |turns|, i);
    }
    if !IsReady(w, e, revents, d) {
      StateAtOther(was, w, e, turns, env, |turns|, d);
    }
  }

  /** No handler takes its device out of its engine. */
  ghost predicate ServiceStays(env: int -> Service) {
    forall fd :: AllStay(env(fd).handler) && OutcomeStays(env(fd).outcome)
  }

  lemma OnceKeeps(s: Endpoint<Engine>, k: Dispatch.Kind, env: int -> Service, fd: int)
    ensures var s1 := Once(s, k, env(fd));
            && (Conserved(s) ==> Conserved(s1))
            && (Settled(s) && ServiceStays(env) ==> Settled(s1))
  {
    hide Conserved, Settled, Deliver;
    var ev := EventOf(k, env(fd));
    if ev.Some? {
      if Conserved(s) {
        DeliverConserves(s, ev.value);
      }
      if Settled(s) && ServiceStays(env) {
        DeliverSettled(s, ev.value);
      }
    }
  }

  lemma ServedKeeps(w: World<Engine, Device>, e: Engine, revents: seq<Dispatch.Events>, env: int -> Service, d: Device,
                    s: Endpoint<Engine>, s1: Endpoint<Engine>)
    requires e in w.engines && |w.engines[e].poll| == |revents| && RightlyServed(w, e, revents, env, d, s, s1)
    ensures Conserved(s) ==> Conserved(s1)
    ensures Settled(s) && ServiceStays(env) ==> Settled(s1)
  {
    hide Conserved, Settled, Once, ReadyEntry, ServiceStays;
    if IsReady(w, e, revents, d) {
      var k: nat :| ReadyEntry(w, e, revents, k, d);
      ReadyEntryFits(w, e, revents, k, d);
      OnceKeeps(s, Dispatch.Classify(revents[k]).value, env, w.engines[e].poll[k].fd);
    }
  }

  lemma ReadyEntryFits(w: World<Engine, Device>, e: Engine, revents: seq<Dispatch.Events>, k: nat, d: Device)
    requires e in w.engines && |w.engines[e].poll| == |revents| && ReadyEntry(w, e, revents, k, d)
    ensures k < |revents| && Dispatch.Classify(revents[k]).Some?
  {
  }

  /** awaitOnceUpto over network devices whose handlers keep to their own device: the
      registry stays coherent, and every device that poll() reported ready is served
      exactly once, by its own event, in the order of the schedule, whatever the
      callbacks before it close, open and get back from the system; the others are
      untouched. */
  method AwaitOnceUpto(e: Engine, revents: seq<Dispatch.Events>, res: int, env: int -> Service, nets: Fleet,
                       ghost u: Universe, ghost fds: int -> set<int>)
    returns (served: bool, ghost script: seq<seq<Step>>, ghost calls: seq<Made>)
    requires Manned(u, nets) && e in u.engines && |revents| == |e.pollDevices|
    requires var turns := Dispatch.Schedule(Dispatch.FullScan(e.pollDevices, revents, |revents|));
             res > 0 && Polled(u.View(), e, turns) ==>
               RoundFits(States(u, nets), u.View(), e, turns, env, fds, u.engines)
    requires res > 0 ==> res == Dispatch.ReadyIn(revents, |revents|)
    modifies nets.Values, u.engines, u.devices
    ensures Manned(u, nets) && served == (res > 0)
    ensures !served ==> u.View() == old(u.View()) && States(u, nets) == old(States(u, nets))
    ensures var turns := Dispatch.Schedule(Dispatch.FullScan(old(e.pollDevices), revents, |revents|));
            served ==>
              && Polled(old(u.View()), e, turns)
              && |calls| == |turns| && AllServed(old(u.View()), e, turns, calls)
              && (forall c :: 0 <= c < |calls| ==> Dispatch.LiveCall(calls[c], e))
              && Dispatch.RoundState(u.View(), calls) == Dispatch.Round(old(u.View()), e, turns, |turns|, script)
    ensures old(u.View()).engines[e].poll == old(e.pollDevices)
    ensures served ==> forall d :: d in nets ==>
              RightlyServed(old(u.View()), e, revents, env, d, old(nets[d].State(u)), nets[d].State(u))
    ensures served ==> forall d, k: nat ::
              d in nets && k < |revents| && Owner(old(u.View()), e, old(e.pollDevices)[k].fd) == Some(d) ==>
              ServedBy(revents[k], env(old(e.pollDevices)[k].fd), old(nets[d].State(u)), nets[d].State(u))
    ensures forall d :: d in nets ==>
              && (Conserved(old(nets[d].State(u))) ==> Conserved(nets[d].State(u)))
              && (Settled(old(nets[d].State(u))) && ServiceStays(env) ==> Settled(nets[d].State(u)))
  {
    hide Coherent, Polled, Dispatch.Round, Dispatch.RoundGuarded, Dispatch.FullScan, Dispatch.Schedule, Universe.View,
         KeepsToItself, RoundFits, Known, Conserved, Settled, ServiceStays, RightlyServed, AllServed, ServedBy,
         Dispatch.LiveCall;
    script, calls := [], [];
    ghost var w, was := u.View(), States(u, nets);
    EngineAt(u, e);
    if res <= 0 {
      return false, script, calls;
    }
    served := true;
    var s := Dispatch.Scan(e.pollDevices, revents, res);
    ghost var turns := Dispatch.Schedule(s);
    SchedulePolled(w, e, revents);
    script, calls := ServeTurns(e, Dispatch.Schedule(s), env, nets, u, fds);
    OwnCallbacksServeAll(w, e, turns, |turns|, script);
    Dispatch.RoundSafe(w, e, turns, |turns|, script);
    forall d | d in nets
      ensures RightlyServed(w, e, revents, env, d, was[d], nets[d].State(u))
      ensures Conserved(was[d]) ==> Conserved(nets[d].State(u))
      ensures Settled(was[d]) && ServiceStays(env) ==> Settled(nets[d].State(u))
    {
      RoundServes(was, w, e, revents, env, d);
      ServedKeeps(w, e, revents, env, d, was[d], nets[d].State(u));
    }
    forall d, k: nat | d in nets && k < |revents| && Owner(w, e, w.engines[e].poll[k].fd) == Some(d)
      ensures ServedBy(revents[k], env(w.engines[e].poll[k].fd), was[d], nets[d].State(u))
    {
      MappedPolled(w, e, w.engines[e].poll[k].fd, d);
      RightlyServedBy(w, e, revents, env, k, d, was[d], nets[d].State(u));
    }
  }

  /** A number that is freed in a round may go to another device in the same round: two
      UDP clients report errors, the reconnect of the first fails, and the second gets the
      number that the first has just closed. */
  lemma FreedNumberFits(w: World<Engine, Device>, e: Engine, was: Before, env: int -> Service, a: Device, b: Device,
                        x: int, y: int, engines: set<Engine>)
    returns (turns: seq<Dispatch.Turn>, fds: int -> set<int>)
    requires e in w.engines && x != y && a != b
    requires Owner(w, e, x) == Some(a) && Owner(w, e, y) == Some(b) && was.Keys == {a, b}
    requires forall d :: d in was ==> was[d].kind.UdpClient? && was[d].engine == Some(e) && was[d].entry.Some?
    requires was[a].handle == Some(x) && was[b].handle == Some(y)
    requires AcquiredFrom(env(x).lookup, false) == None && AcquiredFrom(env(y).lookup, false) == Some(x)
    ensures turns == [(Dispatch.ReadyError, x), (Dispatch.ReadyError, y)] && Polled(w, e, turns)
    ensures RoundFits(was, w, e, turns, env, fds, engines)
    ensures StateAt(was, w, e, turns, env, 2, a).handle == None
    ensures StateAt(was, w, e, turns, env, 2, b).handle == Some(x)
  {
    turns := [(Dispatch.ReadyError, x), (Dispatch.ReadyError, y)];
    fds := (fd: int) => if fd == x then {x} else {x, y};
    assert DeviceOf(w, e, turns, 0) == a && DeviceOf(w, e, turns, 1) == b;
    assert StateAt(was, w, e, turns, env, 1, a).handle == None;
    assert TurnFits(was, w, e, turns, env, fds, engines, 0);
    assert TurnFits(was, w, e, turns, env, fds, engines, 1);
  }
}
