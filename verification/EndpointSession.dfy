/** The connection and the descriptors of a device over its whole life: how many
    disconnects are notified, and who closes what. */
module EndpointSession {
  import opened Basics
  import opened RegistryModel
  import opened Sockets
  import opened EndpointModel

  // --------------------------------------------------- runs that stay loaded

  ghost predicate CallStays<E>(c: Call<E>)
    decreases c, 0
  {
    !c.Unload? && (c.SyncSend? ==> OutcomeStays(c.outcome))
  }

  ghost predicate OutcomeStays<E>(out: SendOutcome<E>)
    decreases out, 0
  {
    out.Raised? ==> AllStay(out.handler)
  }

  ghost predicate AllStay<E>(cs: seq<Call<E>>)
    decreases cs, 0
  {
    cs != [] ==> CallStays(cs[0]) && AllStay(cs[1..])
  }

  /** Neither the event nor anything a handler does in it takes the device out of its
      engine (moving it to another one is allowed). */
  ghost predicate EventStays<E>(ev: Event<E>) {
    match ev
    case Api(c) => CallStays(c)
    case ReadyRead(_, handler) => AllStay(handler)
    case ReadyWrite(out) => OutcomeStays(out)
    case ReadyError(_) => true
    case ReadyHangup(handler) => AllStay(handler)
    case ReadyPeerDisconnect(handler) => AllStay(handler)
  }

  /** Every descriptor the device took is its handle or has been closed, once. */
  ghost predicate Owned<E>(s: Endpoint<E>) {
    s.taken == s.closed + Current(s.handle)
  }

  /** A device is connected, bound or initialised when it has a handle, and every session
      it began is the present one, was ended by the peer and notified, or was ended here. */
  ghost predicate SessionAgrees<E>(s: Endpoint<E>) {
    && (s.session.connected <==> s.handle.Some?)
    && s.session.established ==
       s.session.notified + s.session.dropped + if s.session.connected then 1 else 0
  }

  ghost predicate Settled<E>(s: Endpoint<E>) {
    && s.engine.Some? && (s.entry.Some? <==> s.handle.Some?)
    && Owned(s) && SessionAgrees(s)
  }

  lemma OpenSettled<E>(s: Endpoint<E>, sock: Option<int>)
    requires Settled(s)
    ensures Settled(DoOpen(s, sock).0) && DoOpen(s, sock).0.kind == s.kind
  {
  }

  lemma SendSettled<E>(s: Endpoint<E>, c: Call<E>)
    requires Settled(s) && (c.AsyncSend? || c.SendTo? || c.SyncSendTo? || c.Publish?)
    ensures Settled(Perform(s, c).0) && Perform(s, c).0.kind == s.kind
  {
  }

  lemma DisconnectSettled<E>(s: Endpoint<E>)
    requires Settled(s)
    ensures Settled(DoDisconnect(s)) && DoDisconnect(s).kind == s.kind
  {
  }

  lemma JoinSettled<E>(s: Endpoint<E>, e: E)
    requires Settled(s)
    ensures Settled(Join(s, e)) && Join(s, e).kind == s.kind
  {
  }

  lemma LinkSettled<E>(s: Endpoint<E>, c: Call<E>)
    requires Settled(s) && (c.Open? || c.Disconnect? || c.Load?)
    ensures Settled(Perform(s, c).0) && Perform(s, c).0.kind == s.kind
  {
    hide DoOpen, DoDisconnect, Join, Settled;
    if c.Open? {
      OpenSettled(s, SocketOf(c.how));
    } else if c.Disconnect? {
      DisconnectSettled(s);
    } else {
      JoinSettled(s, c.engine);
    }
  }

  lemma {:induction false} PerformSettled<E>(s: Endpoint<E>, c: Call<E>)
    requires Settled(s) && CallStays(c)
    ensures Settled(Perform(s, c).0) && Perform(s, c).0.kind == s.kind
    decreases c, 0
  {
    hide Settled;
    if c.SyncSend? {
      if c.data.Some? {
        SyncSendSettled(s, c.data.value, false, c.outcome);
      }
    } else if c.Open? || c.Disconnect? || c.Load? {
      LinkSettled(s, c);
    } else {
      SendSettled(s, c);
    }
  }

  lemma {:induction false} SyncSendSettled<E>(s: Endpoint<E>, m: Payload, queued: bool, out: SendOutcome<E>)
    requires Settled(s) && OutcomeStays(out)
    ensures var s1 := PerformSyncSend(s, m, queued, out).0; Settled(s1) && s1.kind == s.kind
    decreases out, 1
  {
    if out.Raised? && s.handle.Some? {
      HookSettled(Logged(s, Stream(m, queued)), out);
    }
  }

  lemma {:induction false} HookSettled<E>(s: Endpoint<E>, out: SendOutcome<E>)
    requires Settled(s) && s.handle.Some? && out.Raised? && OutcomeStays(out)
    ensures Settled(Hook(s, out)) && Hook(s, out).kind == s.kind
    decreases out, 0
  {
    hide Settled, DoOpen, PeerDisconnected;
    OpenSettled(s, SocketOf(Connect(out.lookup)));
    if s.kind.TcpClient? {
      PeerSettled(s, out.handler);
    }
  }

  lemma {:induction false} PeerSettled<E>(s: Endpoint<E>, handler: seq<Call<E>>)
    requires Settled(s) && s.handle.Some? && s.kind.TcpClient? && AllStay(handler)
    ensures Settled(PeerDisconnected(s, handler)) && PeerDisconnected(s, handler).kind == s.kind
    decreases handler, 1
  {
    PerformAllSettled(PeerLost(s), handler);
  }

  lemma {:induction false} PerformAllSettled<E>(s: Endpoint<E>, cs: seq<Call<E>>)
    requires Settled(s) && AllStay(cs)
    ensures Settled(PerformAll(s, cs)) && PerformAll(s, cs).kind == s.kind
    decreases cs, 0
  {
    if cs != [] {
      PerformSettled(s, cs[0]);
      PerformAllSettled(Perform(s, cs[0]).0, cs[1..]);
    }
  }

  /** Settledness does not depend on the messages or on the interest. */
  lemma QueuesSettled<E>(s: Endpoint<E>, s1: Endpoint<E>)
    requires Settled(s) && OnlyMessages(s, s1)
    ensures Settled(s1)
  {
  }

  lemma WriteSettled<E>(s: Endpoint<E>, out: SendOutcome<E>)
    requires Settled(s) && OutcomeStays(out)
    ensures Settled(DoReadyWrite(s, out))
  {
    hide Settled, PerformSyncSend, DoReadyWrite;
    WriteEffect(s, out);
    if SendsStream(s) {
      var t := PerformSyncSend(s, s.io.pending[0], true, out).0;
      SyncSendSettled(s, s.io.pending[0], true, out);
      QueuesSettled(t, DoReadyWrite(s, out));
    } else {
      QueuesSettled(s, DoReadyWrite(s, out));
    }
  }

  lemma ReadSettled<E>(s: Endpoint<E>, read: ReadOutcome, handler: seq<Call<E>>)
    requires Settled(s) && s.handle.Some? && AllStay(handler)
    ensures Settled(DoReadyRead(s, read, handler))
  {
    PerformAllSettled(s, handler);
    if s.kind.TcpClient? {
      PeerSettled(s, handler);
    }
  }

  lemma DeliverSettled<E>(s: Endpoint<E>, ev: Event<E>)
    requires Settled(s) && EventStays(ev)
    ensures Settled(Deliver(s, ev))
  {
    if ev.Api? {
      PerformSettled(s, ev.call);
    } else if s.entry.Some? {
      match ev
      case ReadyRead(read, handler) => ReadSettled(s, read, handler);
      case ReadyWrite(out) => WriteSettled(s, out);
      case ReadyError(lookup) =>
        if s.kind.UdpClient? {
          OpenSettled(s, SocketOf(Connect(lookup)));
        }
      case ReadyHangup(handler) =>
        if s.kind.TcpClient? {
          PeerSettled(s, handler);
        }
      case ReadyPeerDisconnect(handler) =>
        if s.kind.TcpClient? {
          PeerSettled(s, handler);
        }
    }
  }

  /** Over every run of a loaded device, with reconnects from inside its handlers:
      its descriptors are all accounted for; being connected, having a handle and having
      a poll entry are one thing; and every notified disconnect ended a different
      connection. */
  lemma {:induction false} RunSettled<E>(s: Endpoint<E>, evs: seq<Event<E>>)
    requires Settled(s) && forall ev :: ev in evs ==> EventStays(ev)
    ensures Settled(DeliverAll(s, evs))
    decreases |evs|
  {
    if evs != [] {
      DeliverSettled(s, evs[0]);
      RunSettled(Deliver(s, evs[0]), evs[1..]);
    }
  }

  // ------------------------------------------------ the account of descriptors

  /** What the device has closed, and will have closed when it is destroyed now. */
  ghost function Held<E>(s: Endpoint<E>): multiset<int> {
    s.closed + Current(s.handle)
  }

  /** From s to s1 the device closes what it takes, and `strays` on top. */
  ghost predicate Ledger<E>(s: Endpoint<E>, s1: Endpoint<E>, strays: multiset<int>) {
    Held(s1) + s.taken == s1.taken + Held(s) + strays
  }

  /** What destroyHandle closes and keeps: the handle of a device outside any engine. */
  ghost function Stray<E>(s: Endpoint<E>): multiset<int> {
    if s.engine.None? then Current(s.handle) else multiset{}
  }

  /** An opening that succeeds replaces the handle that was closed and kept. */
  ghost function OpenStrays<E>(s: Endpoint<E>, sock: Option<int>): multiset<int> {
    if sock.None? then Stray(s) else multiset{}
  }

  /** The descriptors that a call, with the handlers it sets off, closes and keeps. */
  ghost function CallStrays<E>(s: Endpoint<E>, c: Call<E>): multiset<int>
    decreases c, 0
  {
    match c
    case Disconnect => Stray(s)
    case Open(how) => if Offers(s.kind, how) then OpenStrays(s, SocketOf(how)) else multiset{}
    case SyncSend(data, out) =>
      if data.None? || !DeviceIsReady(s) then multiset{} else SendStrays(s, data.value, false, out)
    case _ => multiset{}
  }

  ghost function SendStrays<E>(s: Endpoint<E>, m: Payload, queued: bool, out: SendOutcome<E>): multiset<int>
    decreases out, 1
  {
    if s.handle.None? || !out.Raised? then multiset{} else HookStrays(Logged(s, Stream(m, queued)), out)
  }

  ghost function HookStrays<E>(s: Endpoint<E>, out: SendOutcome<E>): multiset<int>
    requires out.Raised?
    decreases out, 0
  {
    if out.event.ErrorRaised? then
      if s.kind.UdpClient? then OpenStrays(s, SocketOf(Connect(out.lookup))) else multiset{}
    else if s.kind.TcpClient? then PeerStrays(s, out.handler)
    else multiset{}
  }

  ghost function PeerStrays<E>(s: Endpoint<E>, handler: seq<Call<E>>): multiset<int>
    decreases handler, 1
  {
    Stray(s) + AllStrays(PeerLost(s), handler)
  }

  ghost function AllStrays<E>(s: Endpoint<E>, cs: seq<Call<E>>): multiset<int>
    decreases cs, 0
  {
    if cs == [] then multiset{} else CallStrays(s, cs[0]) + AllStrays(Perform(s, cs[0]).0, cs[1..])
  }

  ghost function WriteStrays<E>(s: Endpoint<E>, out: SendOutcome<E>): multiset<int> {
    if SendsStream(s) then SendStrays(s, s.io.pending[0], true, out) else multiset{}
  }

  ghost function EventStrays<E>(s: Endpoint<E>, ev: Event<E>): multiset<int> {
    if ev.Api? then CallStrays(s, ev.call)
    else if s.entry.None? then multiset{}
    else match ev
      case ReadyRead(read, handler) =>
        if s.kind.TcpClient? && !read.ReadData? then PeerStrays(s, handler)
        else if read.ReadFails? then multiset{}
        else AllStrays(s, handler)
      case ReadyWrite(out) => WriteStrays(s, out)
      case ReadyError(lookup) => if s.kind.UdpClient? then OpenStrays(s, SocketOf(Connect(lookup))) else multiset{}
      case ReadyHangup(handler) => if s.kind.TcpClient? then PeerStrays(s, handler) else multiset{}
      case ReadyPeerDisconnect(handler) => if s.kind.TcpClient? then PeerStrays(s, handler) else multiset{}
  }

  ghost function RunStrays<E>(s: Endpoint<E>, evs: seq<Event<E>>): multiset<int>
    decreases |evs|
  {
    if evs == [] then multiset{} else EventStrays(s, evs[0]) + RunStrays(Deliver(s, evs[0]), evs[1..])
  }

  lemma LoseLedger<E>(s: Endpoint<E>)
    ensures Ledger(s, LoseHandle(s), Stray(s))
    ensures Ledger(s, DoDisconnect(s), Stray(s)) && Ledger(s, PeerLost(s), Stray(s))
  {
  }

  lemma OpenLedger<E>(s: Endpoint<E>, sock: Option<int>)
    ensures Ledger(s, DoOpen(s, sock).0, OpenStrays(s, sock))
  {
  }

  lemma SameLedger<E>(s: Endpoint<E>, s1: Endpoint<E>)
    requires s1.handle == s.handle && s1.taken == s.taken && s1.closed == s.closed
    ensures Ledger(s, s1, multiset{})
  {
  }

  /** Two accounts, one after the other, with arithmetic on multisets set apart. */
  lemma LedgerTransitive<E>(a: Endpoint<E>, b: Endpoint<E>, c: Endpoint<E>, m: multiset<int>, n: multiset<int>)
    requires Ledger(a, b, m) && Ledger(b, c, n)
    ensures Ledger(a, c, m + n)
  {
    hide Held;
    forall x ensures (Held(c) + a.taken)[x] == (c.taken + Held(a) + (m + n))[x] {
      assert (Held(b) + a.taken)[x] == (b.taken + Held(a) + m)[x];
      assert (Held(c) + b.taken)[x] == (c.taken + Held(b) + n)[x];
    }
    assert Held(c) + a.taken == c.taken + Held(a) + (m + n);
  }

  lemma {:induction false} CallLedger<E>(s: Endpoint<E>, c: Call<E>)
    ensures Ledger(s, Perform(s, c).0, CallStrays(s, c))
    decreases c, 0
  {
    hide Ledger, Stray;
    if c.SyncSend? {
      SameLedger(s, s);
      if c.data.Some? {
        SendLedger(s, c.data.value, false, c.outcome);
      }
    } else if c.Open? {
      SameLedger(s, s);
      OpenLedger(s, SocketOf(c.how));
    } else if c.Disconnect? {
      LoseLedger(s);
    } else {
      SameLedger(s, Perform(s, c).0);
    }
  }

  lemma {:induction false} SendLedger<E>(s: Endpoint<E>, m: Payload, queued: bool, out: SendOutcome<E>)
    ensures Ledger(s, PerformSyncSend(s, m, queued, out).0, SendStrays(s, m, queued, out))
    decreases out, 1
  {
    hide Ledger, Hook, HookStrays;
    var t := Logged(s, Stream(m, queued));
    if out.Raised? && s.handle.Some? {
      HookLedger(t, out);
      SameLedger(s, t);
      LedgerTransitive(s, t, Hook(t, out), multiset{}, HookStrays(t, out));
      assert multiset{} + HookStrays(t, out) == HookStrays(t, out);
    } else {
      SameLedger(s, PerformSyncSend(s, m, queued, out).0);
    }
  }

  lemma {:induction false} HookLedger<E>(s: Endpoint<E>, out: SendOutcome<E>)
    requires out.Raised?
    ensures Ledger(s, Hook(s, out), HookStrays(s, out))
    decreases out, 0
  {
    hide Ledger, Stray;
    SameLedger(s, s);
    if out.event.ErrorRaised? {
      OpenLedger(s, SocketOf(Connect(out.lookup)));
    } else {
      PeerLedger(s, out.handler);
    }
  }

  lemma {:induction false} PeerLedger<E>(s: Endpoint<E>, handler: seq<Call<E>>)
    ensures Ledger(s, PeerDisconnected(s, handler), PeerStrays(s, handler))
    decreases handler, 1
  {
    hide Ledger, Stray;
    LoseLedger(s);
    AllLedger(PeerLost(s), handler);
    LedgerTransitive(s, PeerLost(s), PeerDisconnected(s, handler), Stray(s), AllStrays(PeerLost(s), handler));
  }

  lemma {:induction false} AllLedger<E>(s: Endpoint<E>, cs: seq<Call<E>>)
    ensures Ledger(s, PerformAll(s, cs), AllStrays(s, cs))
    decreases cs, 0
  {
    hide Ledger;
    SameLedger(s, s);
    if cs != [] {
      var s1 := Perform(s, cs[0]).0;
      CallLedger(s, cs[0]);
      AllLedger(s1, cs[1..]);
      LedgerTransitive(s, s1, PerformAll(s, cs), CallStrays(s, cs[0]), AllStrays(s1, cs[1..]));
    }
  }

  lemma WriteLedger<E>(s: Endpoint<E>, out: SendOutcome<E>)
    ensures Ledger(s, DoReadyWrite(s, out), WriteStrays(s, out))
  {
    hide PerformSyncSend, SendStrays, DoReadyWrite;
    WriteEffect(s, out);
    if SendsStream(s) {
      SendLedger(s, s.io.pending[0], true, out);
    } else {
      SameLedger(s, DoReadyWrite(s, out));
    }
  }

  lemma EventLedger<E>(s: Endpoint<E>, ev: Event<E>)
    ensures Ledger(s, Deliver(s, ev), EventStrays(s, ev))
  {
    hide Ledger, Stray, PerformAll, PeerDisconnected, AllStrays, PeerStrays, DoReadyWrite,
         Perform, CallStrays, SendStrays;
    SameLedger(s, s);
    match ev
    case Api(c) => CallLedger(s, c);
    case ReadyRead(_, handler) =>
      AllLedger(s, handler);
      PeerLedger(s, handler);
    case ReadyWrite(out) => WriteLedger(s, out);
    case ReadyError(lookup) => OpenLedger(s, SocketOf(Connect(lookup)));
    case ReadyHangup(handler) => PeerLedger(s, handler);
    case ReadyPeerDisconnect(handler) => PeerLedger(s, handler);
  }

  /** Over every run, in and outside engines, a device closes or still holds exactly what
      it took and, once more each, its strays. */
  lemma {:induction false} RunLedger<E>(s: Endpoint<E>, evs: seq<Event<E>>)
    ensures Ledger(s, DeliverAll(s, evs), RunStrays(s, evs))
    decreases |evs|
  {
    hide Ledger, Deliver, EventStrays;
    SameLedger(s, s);
    if evs != [] {
      var s1 := Deliver(s, evs[0]);
      EventLedger(s, evs[0]);
      RunLedger(s1, evs[1..]);
      LedgerTransitive(s, s1, DeliverAll(s, evs), EventStrays(s, evs[0]), RunStrays(s1, evs[1..]));
    }
  }

  /** So its descriptors are accounted for after a run exactly when the run has no
      strays, and destroying it closes the strays a second time. */
  lemma RunOwnedIff<E>(s: Endpoint<E>, evs: seq<Event<E>>)
    requires Owned(s)
    ensures var s1, strays := DeliverAll(s, evs), RunStrays(s, evs);
            && (Owned(s1) <==> strays == multiset{})
            && DestructEndpoint(s1).closed == s1.taken + strays
  {
    hide Ledger;
    RunLedger(s, evs);
    LedgerFromOwned(s, DeliverAll(s, evs), RunStrays(s, evs));
  }

  lemma LedgerFromOwned<E>(s: Endpoint<E>, s1: Endpoint<E>, strays: multiset<int>)
    requires Owned(s) && Ledger(s, s1, strays)
    ensures Held(s1) == s1.taken + strays
    ensures Owned(s1) <==> strays == multiset{}
  {
    hide Held;
    assert s.taken == Held(s) by { HeldIs(s); }
    forall x ensures Held(s1)[x] == (s1.taken + strays)[x] {
      assert (Held(s1) + s.taken)[x] == (s1.taken + Held(s) + strays)[x];
    }
    HeldIs(s1);
    if Owned(s1) {
      forall x ensures strays[x] == 0 {
        assert Held(s1)[x] == (s1.taken + strays)[x];
      }
      assert strays == multiset{};
    }
  }

  lemma HeldIs<E>(s: Endpoint<E>)
    ensures Held(s) == s.closed + Current(s.handle)
  {
  }

  /** From registration to destruction, a device that stays loaded closes every
      descriptor it took exactly once, and notifies no more disconnects than it made
      connections. */
  lemma LifeClosesAll<E>(kind: Kind, e: E, evs: seq<Event<E>>)
    requires forall ev :: ev in evs ==> EventStays(ev)
    ensures var s := DeliverAll(NewEndpoint(kind, e), evs);
            && DestructEndpoint(s).closed == DestructEndpoint(s).taken
            && s.session.notified <= s.session.established
    ensures RunStrays(NewEndpoint(kind, e), evs) == multiset{}
  {
    RunSettled(NewEndpoint(kind, e), evs);
    RunOwnedIff(NewEndpoint(kind, e), evs);
  }

  // ------------------------------------------------------ outside an engine

  /** destroyHandle keeps the account of a device exactly when the device is loaded
      or has no handle: unloaded, it closes the descriptor and keeps the handle. */
  lemma LoseHandleOwnedIff<E>(s: Endpoint<E>)
    requires Owned(s)
    ensures Owned(LoseHandle(s)) <==> s.engine.Some? || s.handle.None?
  {
    LoseLedger(s);
    LedgerFromOwned(s, LoseHandle(s), Stray(s));
  }

  /** Opening puts that right again, if it gets a socket. */
  lemma OpenOwnedIff<E>(s: Endpoint<E>, sock: Option<int>)
    requires Owned(s)
    ensures Owned(DoOpen(s, sock).0) <==> s.engine.Some? || s.handle.None? || sock.Some?
  {
  }

  /** A device that is not in an engine and disconnects has its descriptor closed a
      second time when it is destroyed. */
  lemma UnloadedClosedTwice<E>(s: Endpoint<E>)
    requires Owned(s) && s.engine.None? && s.handle.Some?
    ensures var last := DestructEndpoint(DoDisconnect(s));
            last.closed == last.taken + multiset{s.handle.value}
  {
  }

  lemma HangupNotifies<E>(s: Endpoint<E>, m: Payload, lookup: Lookup)
    requires s.kind.TcpClient? && s.handle.Some?
    ensures Perform(s, SyncSend(Some(m), Raised(HangupRaised, lookup, []))).0 == PeerLost(Logged(s, Stream(m, false)))
  {
    var t := Logged(s, Stream(m, false));
    assert Hook(t, Raised(HangupRaised, lookup, [])) == PeerDisconnected(t, []) == PeerLost(t);
  }

  /** So does a TCP client that is not in an engine and meets a hangup in a synchronous
      send, when its disconnect handler does nothing about it. */
  lemma UnloadedHangupClosedTwice<E>(s: Endpoint<E>, m: Payload, lookup: Lookup)
    requires Owned(s) && s.engine.None? && s.handle.Some? && s.kind.TcpClient?
    ensures var call := SyncSend(Some(m), Raised(HangupRaised, lookup, []));
            var last := DestructEndpoint(Perform(s, call).0);
            last.closed == last.taken + multiset{s.handle.value}
  {
    HangupNotifies(s, m, lookup);
  }

  /** In an engine a second destroyHandle closes nothing. */
  lemma LoseHandleTwice<E>(s: Endpoint<E>)
    requires s.engine.Some?
    ensures LoseHandle(LoseHandle(s)) == LoseHandle(s)
  {
  }
}
