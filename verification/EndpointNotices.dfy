/** The disconnect notifications of a device over its whole life, in and outside engines,
    against the connections that it made. */
module EndpointNotices {
  import opened Basics
  import opened Sockets
  import opened EndpointModel
  import opened EndpointSession

  /** How many more sessions a device has ended, or has, than it has begun. */
  ghost function Excess<E>(s: Endpoint<E>): int {
    s.session.notified + s.session.dropped + (if s.session.connected then 1 else 0) - s.session.established
  }

  /** A notification that ends no connection: outside an engine a device keeps its handle
      when its peer is gone, and may meet a hangup on it again. */
  ghost function Phantom<E>(s: Endpoint<E>): nat {
    if s.session.connected then 0 else 1
  }

  /** The phantoms of a call, with the handlers it sets off. */
  ghost function CallPhantoms<E>(s: Endpoint<E>, c: Call<E>): nat
    decreases c, 0
  {
    if c.SyncSend? && c.data.Some? && DeviceIsReady(s) then SendPhantoms(s, c.data.value, false, c.outcome) else 0
  }

  ghost function SendPhantoms<E>(s: Endpoint<E>, m: Payload, queued: bool, out: SendOutcome<E>): nat
    decreases out, 1
  {
    if s.handle.None? || !out.Raised? || out.event.ErrorRaised? || !s.kind.TcpClient? then 0
    else PeerPhantoms(Logged(s, Stream(m, queued)), out.handler)
  }

  ghost function PeerPhantoms<E>(s: Endpoint<E>, handler: seq<Call<E>>): nat
    decreases handler, 1
  {
    Phantom(s) + AllPhantoms(PeerLost(s), handler)
  }

  ghost function AllPhantoms<E>(s: Endpoint<E>, cs: seq<Call<E>>): nat
    decreases cs, 0
  {
    if cs == [] then 0 else CallPhantoms(s, cs[0]) + AllPhantoms(Perform(s, cs[0]).0, cs[1..])
  }

  ghost function EventPhantoms<E>(s: Endpoint<E>, ev: Event<E>): nat {
    if ev.Api? then CallPhantoms(s, ev.call)
    else if s.entry.None? then 0
    else match ev
      case ReadyRead(read, handler) =>
        if s.kind.TcpClient? && !read.ReadData? then PeerPhantoms(s, handler)
        else if read.ReadFails? then 0
        else AllPhantoms(s, handler)
      case ReadyWrite(out) => if SendsStream(s) then SendPhantoms(s, s.io.pending[0], true, out) else 0
      case ReadyError(_) => 0
      case ReadyHangup(handler) => if s.kind.TcpClient? then PeerPhantoms(s, handler) else 0
      case ReadyPeerDisconnect(handler) => if s.kind.TcpClient? then PeerPhantoms(s, handler) else 0
  }

  ghost function RunPhantoms<E>(s: Endpoint<E>, evs: seq<Event<E>>): nat
    decreases |evs|
  {
    if evs == [] then 0 else EventPhantoms(s, evs[0]) + RunPhantoms(Deliver(s, evs[0]), evs[1..])
  }

  /** Beginning a session and ending one from this side never disturbs the count. */
  lemma PlainCount<E>(s: Endpoint<E>, c: Call<E>)
    requires !c.SyncSend?
    ensures Excess(Perform(s, c).0) == Excess(s)
  {
  }

  lemma {:induction false} CallCount<E>(s: Endpoint<E>, c: Call<E>)
    ensures Excess(Perform(s, c).0) == Excess(s) + CallPhantoms(s, c)
    decreases c, 0
  {
    if !c.SyncSend? {
      PlainCount(s, c);
    } else if c.data.Some? {
      SendCount(s, c.data.value, false, c.outcome);
    }
  }

  lemma {:induction false} SendCount<E>(s: Endpoint<E>, m: Payload, queued: bool, out: SendOutcome<E>)
    ensures Excess(PerformSyncSend(s, m, queued, out).0) == Excess(s) + SendPhantoms(s, m, queued, out)
    decreases out, 1
  {
    hide Hook, PeerPhantoms;
    if out.Raised? && s.handle.Some? {
      HookCount(Logged(s, Stream(m, queued)), out);
    }
  }

  lemma {:induction false} HookCount<E>(s: Endpoint<E>, out: SendOutcome<E>)
    requires out.Raised?
    ensures Excess(Hook(s, out)) ==
            Excess(s) + if !out.event.ErrorRaised? && s.kind.TcpClient? then PeerPhantoms(s, out.handler) else 0
    decreases out, 0
  {
    hide PeerDisconnected, PeerPhantoms;
    PeerCount(s, out.handler);
  }

  lemma {:induction false} PeerCount<E>(s: Endpoint<E>, handler: seq<Call<E>>)
    ensures Excess(PeerDisconnected(s, handler)) == Excess(s) + PeerPhantoms(s, handler)
    decreases handler, 1
  {
    AllCount(PeerLost(s), handler);
  }

  lemma {:induction false} AllCount<E>(s: Endpoint<E>, cs: seq<Call<E>>)
    ensures Excess(PerformAll(s, cs)) == Excess(s) + AllPhantoms(s, cs)
    decreases cs, 0
  {
    hide Excess;
    if cs != [] {
      CallCount(s, cs[0]);
      AllCount(Perform(s, cs[0]).0, cs[1..]);
    }
  }

  lemma WriteCount<E>(s: Endpoint<E>, out: SendOutcome<E>)
    ensures Excess(DoReadyWrite(s, out)) ==
            Excess(s) + if SendsStream(s) then SendPhantoms(s, s.io.pending[0], true, out) else 0
  {
    hide PerformSyncSend, DoReadyWrite, SendPhantoms;
    WriteEffect(s, out);
    if SendsStream(s) {
      SendCount(s, s.io.pending[0], true, out);
    }
  }

  lemma EventCount<E>(s: Endpoint<E>, ev: Event<E>)
    ensures Excess(Deliver(s, ev)) == Excess(s) + EventPhantoms(s, ev)
  {
    hide Perform, PerformAll, PeerDisconnected, DoReadyWrite, CallPhantoms, SendPhantoms, PeerPhantoms, AllPhantoms;
    match ev
    case Api(c) => CallCount(s, c);
    case ReadyRead(_, handler) =>
      AllCount(s, handler);
      PeerCount(s, handler);
    case ReadyWrite(out) => WriteCount(s, out);
    case ReadyError(_) =>
    case ReadyHangup(handler) => PeerCount(s, handler);
    case ReadyPeerDisconnect(handler) => PeerCount(s, handler);
  }

  /** Over every run, in and outside engines, the sessions that a device has ended, with
      the one it has, are those it has begun and one more for each phantom. */
  lemma {:induction false} RunCount<E>(s: Endpoint<E>, evs: seq<Event<E>>)
    ensures Excess(DeliverAll(s, evs)) == Excess(s) + RunPhantoms(s, evs)
    decreases |evs|
  {
    hide Excess, Deliver, EventPhantoms;
    if evs != [] {
      EventCount(s, evs[0]);
      RunCount(Deliver(s, evs[0]), evs[1..]);
    }
  }

  /** So a device has notified no more disconnects than it has made connections exactly
      when the run has no more phantoms than connections that did not end that way. */
  lemma RunNoticesIff<E>(s: Endpoint<E>, evs: seq<Event<E>>)
    requires Excess(s) == 0
    ensures var s1 := DeliverAll(s, evs);
            && (s1.session.notified <= s1.session.established <==>
                  RunPhantoms(s, evs) <= s1.session.dropped + if s1.session.connected then 1 else 0)
            && (Excess(s1) == 0 <==> RunPhantoms(s, evs) == 0)
  {
    RunCount(s, evs);
  }

  /** A device that stays loaded has none. */
  lemma LoadedNoPhantoms<E>(s: Endpoint<E>, evs: seq<Event<E>>)
    requires Settled(s) && forall ev :: ev in evs ==> EventStays(ev)
    ensures RunPhantoms(s, evs) == 0
  {
    RunSettled(s, evs);
    RunCount(s, evs);
  }

  /** A TCP client that is in no engine and meets a hangup in two synchronous sends
      notifies twice for one connection. */
  lemma HangupNotifiedTwice<E>(s: Endpoint<E>, m: Payload, lookup: Lookup)
    requires s.kind.TcpClient? && s.engine.None? && s.handle.Some? && s.session == Session(true, 1, 0, 0)
    ensures var call := SyncSend(Some(m), Raised(HangupRaised, lookup, []));
            var s2 := Perform(Perform(s, call).0, call).0;
            s2.session.notified == 2 && s2.session.established == 1
  {
    var call: Call<E> := SyncSend(Some(m), Raised(HangupRaised, lookup, []));
    HangupNotifies(s, m, lookup);
    HangupNotifies(Perform(s, call).0, m, lookup);
  }
}
