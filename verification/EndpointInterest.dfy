/** Whether a device with pending messages is polled for writing, and how write
    events drain its queues. */
module EndpointInterest {
  import opened Basics
  import opened RegistryModel
  import opened Sockets
  import opened EndpointModel

  ghost predicate Pending<E>(s: Endpoint<E>) {
    s.io.pending != [] || s.net.pending != []
  }

  /** A polled device with something to send is polled for writing. */
  ghost predicate Armed<E>(s: Endpoint<E>) {
    s.entry.Some? && Pending(s) ==> s.entry == Some(PollOut)
  }

  ghost predicate EntryAgrees<E>(s: Endpoint<E>) {
    s.entry.Some? <==> s.engine.Some? && s.handle.Some?
  }

  // ------------------------------------------------- the entry over any calls

  lemma {:induction false} CallEntry<E>(s: Endpoint<E>, c: Call<E>)
    requires EntryAgrees(s)
    ensures EntryAgrees(Perform(s, c).0)
    decreases c, 0
  {
    if c.SyncSend? && c.data.Some? {
      SendEntry(s, c.data.value, false, c.outcome);
    }
  }

  lemma {:induction false} SendEntry<E>(s: Endpoint<E>, m: Payload, queued: bool, out: SendOutcome<E>)
    requires EntryAgrees(s)
    ensures EntryAgrees(PerformSyncSend(s, m, queued, out).0)
    decreases out, 1
  {
    if out.Raised? {
      hide PeerDisconnected;
      PeerEntry(Logged(s, Stream(m, queued)), out.handler);
    }
  }

  lemma {:induction false} PeerEntry<E>(s: Endpoint<E>, handler: seq<Call<E>>)
    requires EntryAgrees(s)
    ensures EntryAgrees(PeerDisconnected(s, handler))
    decreases handler, 1
  {
    AllEntry(PeerLost(s), handler);
  }

  lemma {:induction false} AllEntry<E>(s: Endpoint<E>, cs: seq<Call<E>>)
    requires EntryAgrees(s)
    ensures EntryAgrees(PerformAll(s, cs))
    decreases cs, 0
  {
    if cs != [] {
      CallEntry(s, cs[0]);
      AllEntry(Perform(s, cs[0]).0, cs[1..]);
    }
  }

  lemma EventEntry<E>(s: Endpoint<E>, ev: Event<E>)
    requires EntryAgrees(s)
    ensures EntryAgrees(Deliver(s, ev))
  {
    hide PerformAll, PeerDisconnected, PerformSyncSend, DoReadyWrite, Perform;
    match ev
    case Api(c) => CallEntry(s, c);
    case ReadyRead(_, handler) =>
      AllEntry(s, handler);
      PeerEntry(s, handler);
    case ReadyWrite(out) =>
      WriteEffect(s, out);
      if SendsStream(s) {
        SendEntry(s, s.io.pending[0], true, out);
      }
    case ReadyError(lookup) =>
    case ReadyHangup(handler) => PeerEntry(s, handler);
    case ReadyPeerDisconnect(handler) => PeerEntry(s, handler);
  }

  // --------------------------------------------------------- calls that disarm

  /** Getting a socket in an engine makes a new entry, for reading. */
  ghost predicate Reopens<E>(s: Endpoint<E>, sock: Option<int>) {
    s.engine.Some? && sock.Some?
  }

  ghost predicate SendDisarms<E>(s: Endpoint<E>, out: SendOutcome<E>) {
    s.entry.Some? &&
    (if out.Wrote? then !s.kind.Multicaster?
     else out.Raised? && out.event.ErrorRaised? && s.kind.UdpClient? && Reopens(s, SocketOf(Connect(out.lookup))))
  }

  /** The calls that themselves leave pending messages behind with an interest in reading
      only: a synchronous send that writes, or reconnects; opening; joining an engine. */
  ghost predicate Disarms<E>(s: Endpoint<E>, c: Call<E>) {
    Pending(s) &&
    match c
    case SyncSend(data, out) => data.Some? && DeviceIsReady(s) && SendDisarms(s, out)
    case Open(how) => Offers(s.kind, how) && Reopens(s, SocketOf(how))
    case Load(e) => s.engine != Some(e) && s.handle.Some?
    case _ => false
  }

  /** The disconnect handler that a synchronous send runs, if it gets that far, starts in
      this state. */
  ghost predicate Notifies<E>(s: Endpoint<E>, out: SendOutcome<E>) {
    s.handle.Some? && s.kind.TcpClient? && out.Raised? && !out.event.ErrorRaised?
  }

  ghost function Notified<E>(s: Endpoint<E>, m: Payload): Endpoint<E> {
    PeerLost(Logged(s, Stream(m, false)))
  }

  /** Armed after the call, and after every call that handlers make in it. */
  ghost predicate ArmedAfter<E>(s: Endpoint<E>, c: Call<E>)
    decreases c, 0
  {
    && Armed(Perform(s, c).0)
    && (c.SyncSend? && c.data.Some? && DeviceIsReady(s) ==> ArmedInside(s, c.data.value, c.outcome))
  }

  ghost predicate ArmedInside<E>(s: Endpoint<E>, m: Payload, out: SendOutcome<E>)
    decreases out, 0
  {
    Notifies(s, out) ==> ArmedAll(Notified(s, m), out.handler)
  }

  ghost predicate ArmedAll<E>(s: Endpoint<E>, cs: seq<Call<E>>)
    decreases cs, 0
  {
    cs != [] ==> ArmedAfter(s, cs[0]) && ArmedAll(Perform(s, cs[0]).0, cs[1..])
  }

  /** Neither the call nor any call that handlers make in it disarms. */
  ghost predicate NoDisarm<E>(s: Endpoint<E>, c: Call<E>)
    decreases c, 0
  {
    && !Disarms(s, c)
    && (c.SyncSend? && c.data.Some? && DeviceIsReady(s) ==> NoDisarmInside(s, c.data.value, c.outcome))
  }

  ghost predicate NoDisarmInside<E>(s: Endpoint<E>, m: Payload, out: SendOutcome<E>)
    decreases out, 0
  {
    Notifies(s, out) ==> NoDisarmAll(Notified(s, m), out.handler)
  }

  ghost predicate NoDisarmAll<E>(s: Endpoint<E>, cs: seq<Call<E>>)
    decreases cs, 0
  {
    cs != [] ==> NoDisarm(s, cs[0]) && NoDisarmAll(Perform(s, cs[0]).0, cs[1..])
  }

  /** Calls without handlers. */
  lemma PlainArmedIff<E>(s: Endpoint<E>, c: Call<E>)
    requires Armed(s) && EntryAgrees(s) && !c.SyncSend?
    ensures Armed(Perform(s, c).0) <==> !Disarms(s, c)
  {
  }

  lemma SendArmedIff<E>(s: Endpoint<E>, m: Payload, out: SendOutcome<E>)
    requires Armed(s) && EntryAgrees(s) && !Notifies(s, out)
    ensures Armed(PerformSyncSend(s, m, false, out).0) <==> !(Pending(s) && SendDisarms(s, out))
  {
  }

  lemma SendNotifies<E>(s: Endpoint<E>, m: Payload, out: SendOutcome<E>)
    requires Notifies(s, out)
    ensures PerformSyncSend(s, m, false, out).0 == PerformAll(Notified(s, m), out.handler)
    ensures Armed(Notified(s, m)) && EntryAgrees(Notified(s, m)) && !SendDisarms(s, out)
  {
    assert PeerDisconnected(Logged(s, Stream(m, false)), out.handler) == PerformAll(Notified(s, m), out.handler);
  }

  /** An armed device stays armed through a call, and through all that handlers do in it,
      exactly when none of these calls disarms. */
  lemma {:induction false} CallArmedIff<E>(s: Endpoint<E>, c: Call<E>)
    requires Armed(s) && EntryAgrees(s)
    ensures ArmedAfter(s, c) <==> NoDisarm(s, c)
    decreases c, 0
  {
    hide Armed, EntryAgrees, PerformSyncSend, PerformAll;
    if !c.SyncSend? {
      PlainArmedIff(s, c);
    } else if c.data.Some? && DeviceIsReady(s) {
      var m, out := c.data.value, c.outcome;
      if Notifies(s, out) {
        SendNotifies(s, m, out);
        AllArmedIff(Notified(s, m), out.handler);
      } else {
        SendArmedIff(s, m, out);
      }
    }
  }

  lemma {:induction false} AllArmedIff<E>(s: Endpoint<E>, cs: seq<Call<E>>)
    requires Armed(s) && EntryAgrees(s)
    ensures ArmedAll(s, cs) <==> NoDisarmAll(s, cs)
    ensures ArmedAll(s, cs) ==> Armed(PerformAll(s, cs))
    decreases cs, 0
  {
    hide Armed, EntryAgrees;
    if cs != [] {
      CallArmedIff(s, cs[0]);
      CallEntry(s, cs[0]);
      if ArmedAfter(s, cs[0]) {
        AllArmedIff(Perform(s, cs[0]).0, cs[1..]);
      }
    }
  }

  // -------------------------------------------------------------------- events

  /** The state in which a ready event runs the user's handler, if it does. */
  ghost function HandlerAt<E>(s: Endpoint<E>, ev: Event<E>): Option<Endpoint<E>> {
    if s.entry.None? then None
    else match ev
      case ReadyRead(read, _) =>
        if s.kind.TcpClient? && !read.ReadData? then Some(PeerLost(s))
        else if read.ReadFails? then None
        else Some(s)
      case ReadyHangup(_) => if s.kind.TcpClient? then Some(PeerLost(s)) else None
      case ReadyPeerDisconnect(_) => if s.kind.TcpClient? then Some(PeerLost(s)) else None
      case _ => None
  }

  ghost function HandlerOf<E>(ev: Event<E>): seq<Call<E>> {
    if ev.ReadyRead? || ev.ReadyHangup? || ev.ReadyPeerDisconnect? then ev.handler else []
  }

  /** Armed after the event, and after every call made in it.  A write event is judged by
      its end alone, since it asks for writing there. */
  ghost predicate EventArmed<E>(s: Endpoint<E>, ev: Event<E>) {
    && Armed(Deliver(s, ev))
    && (ev.Api? ==> ArmedAfter(s, ev.call))
    && (HandlerAt(s, ev).Some? ==> ArmedAll(HandlerAt(s, ev).value, HandlerOf(ev)))
  }

  /** Nothing disarms in the event: no call, and not the reconnect of a UDP client. */
  ghost predicate EventNoDisarm<E>(s: Endpoint<E>, ev: Event<E>) {
    && (ev.Api? ==> NoDisarm(s, ev.call))
    && (ev.ReadyError? && s.entry.Some? && s.kind.UdpClient? && Pending(s) ==>
          !Reopens(s, SocketOf(Connect(ev.lookup))))
    && (HandlerAt(s, ev).Some? ==> NoDisarmAll(HandlerAt(s, ev).value, HandlerOf(ev)))
  }

  /** A write event always leaves the device armed, whatever the send sets off. */
  lemma WriteArmed<E>(s: Endpoint<E>, out: SendOutcome<E>)
    requires EntryAgrees(s) && s.entry.Some?
    ensures Armed(DoReadyWrite(s, out))
  {
    hide PerformSyncSend;
  }

  lemma HandlerRuns<E>(s: Endpoint<E>, ev: Event<E>)
    requires HandlerAt(s, ev).Some?
    ensures Deliver(s, ev) == PerformAll(HandlerAt(s, ev).value, HandlerOf(ev))
    ensures Armed(s) && EntryAgrees(s) ==> Armed(HandlerAt(s, ev).value) && EntryAgrees(HandlerAt(s, ev).value)
  {
  }

  lemma QuietArmedIff<E>(s: Endpoint<E>, ev: Event<E>)
    requires Armed(s) && EntryAgrees(s) && !ev.Api? && HandlerAt(s, ev).None?
    ensures Armed(Deliver(s, ev)) <==> EventNoDisarm(s, ev)
  {
    hide DoReadyWrite;
    if ev.ReadyWrite? && s.entry.Some? {
      WriteArmed(s, ev.outcome);
    }
  }

  /** The same for an event, with reconnects and sends inside its handlers. */
  lemma ArmedStepIff<E>(s: Endpoint<E>, ev: Event<E>)
    requires Armed(s) && EntryAgrees(s)
    ensures EventArmed(s, ev) <==> EventNoDisarm(s, ev)
  {
    hide Armed, EntryAgrees, Pending, PerformAll, Perform, ArmedAll, NoDisarmAll;
    if ev.Api? {
      CallArmedIff(s, ev.call);
    } else if HandlerAt(s, ev).Some? {
      HandlerRuns(s, ev);
      AllArmedIff(HandlerAt(s, ev).value, HandlerOf(ev));
    } else {
      QuietArmedIff(s, ev);
    }
  }

  ghost predicate ArmedThroughout<E>(s: Endpoint<E>, evs: seq<Event<E>>)
    decreases |evs|
  {
    evs != [] ==> EventArmed(s, evs[0]) && ArmedThroughout(Deliver(s, evs[0]), evs[1..])
  }

  ghost predicate NothingDisarms<E>(s: Endpoint<E>, evs: seq<Event<E>>)
    decreases |evs|
  {
    evs != [] ==> EventNoDisarm(s, evs[0]) && NothingDisarms(Deliver(s, evs[0]), evs[1..])
  }

  /** Over every run, pending messages of a polled device have an interest in writing
      after every call, also those made inside handlers, exactly when no call and no
      reconnect disarms. */
  lemma {:induction false} RunArmedIff<E>(s: Endpoint<E>, evs: seq<Event<E>>)
    requires Armed(s) && EntryAgrees(s)
    ensures ArmedThroughout(s, evs) <==> NothingDisarms(s, evs)
    ensures ArmedThroughout(s, evs) ==> Armed(DeliverAll(s, evs))
    ensures EntryAgrees(DeliverAll(s, evs))
    decreases |evs|
  {
    hide Armed, EntryAgrees, Deliver, EventNoDisarm;
    if evs != [] {
      var s1 := Deliver(s, evs[0]);
      ArmedStepIff(s, evs[0]);
      EventEntry(s, evs[0]);
      if EventArmed(s, evs[0]) {
        RunArmedIff(s1, evs[1..]);
      } else {
        RunEntry(s1, evs[1..]);
      }
    }
  }

  lemma {:induction false} RunEntry<E>(s: Endpoint<E>, evs: seq<Event<E>>)
    requires EntryAgrees(s)
    ensures EntryAgrees(DeliverAll(s, evs))
    decreases |evs|
  {
    hide EntryAgrees, Deliver;
    if evs != [] {
      EventEntry(s, evs[0]);
      RunEntry(Deliver(s, evs[0]), evs[1..]);
    }
  }

  /** What disarms in practice: a client whose disconnect handler reconnects, as it is
      meant to, keeps its pending messages with an interest in reading only. */
  lemma ReconnectingHandlerDisarms<E>(s: Endpoint<E>, lookup: Lookup)
    requires EntryAgrees(s) && s.entry.Some? && s.kind.TcpClient? && Pending(s)
    requires AcquiredFrom(lookup, false).Some?
    ensures var ev := ReadyHangup([Open(Connect(lookup))]);
            !Armed(Deliver(s, ev)) && !EventNoDisarm(s, ev)
  {
    var handler: seq<Call<E>> := [Open(Connect(lookup))];
    var s1 := Perform(PeerLost(s), handler[0]).0;
    assert s1.entry == Some(PollIn) && Pending(s1);
    assert PerformAll(s1, handler[1..]) == s1;
    assert PeerDisconnected(s, handler) == PerformAll(PeerLost(s), handler) == s1;
    assert Disarms(PeerLost(s), handler[0]) && !NoDisarm(PeerLost(s), handler[0]);
    assert !NoDisarmAll(PeerLost(s), handler);
  }

  /** The calls and events that cannot disarm whatever the state: all but synchronous
      stream sends, opening, joining an engine, and the reconnect of a UDP client. */
  ghost predicate Harmless<E>(c: Call<E>) {
    !c.SyncSend? && !c.Open? && !c.Load?
  }

  ghost predicate HarmlessEvent<E>(ev: Event<E>) {
    && (ev.Api? ==> Harmless(ev.call)) && !ev.ReadyError?
    && forall c :: c in HandlerOf(ev) ==> Harmless(c)
  }

  lemma {:induction false} HarmlessCalls<E>(s: Endpoint<E>, cs: seq<Call<E>>)
    requires forall c :: c in cs ==> Harmless(c)
    ensures NoDisarmAll(s, cs)
    decreases |cs|
  {
    if cs != [] {
      assert Harmless(cs[0]);
      assert NoDisarm(s, cs[0]);
      HarmlessCalls(Perform(s, cs[0]).0, cs[1..]);
    }
  }

  lemma {:induction false} HarmlessRun<E>(s: Endpoint<E>, evs: seq<Event<E>>)
    requires forall ev :: ev in evs ==> HarmlessEvent(ev)
    ensures NothingDisarms(s, evs)
    decreases |evs|
  {
    if evs != [] {
      assert HarmlessEvent(evs[0]);
      var at := HandlerAt(s, evs[0]);
      if at.Some? {
        HarmlessCalls(at.value, HandlerOf(evs[0]));
      }
      HarmlessRun(Deliver(s, evs[0]), evs[1..]);
    }
  }

  /** Over every run made of such events, with handlers that make such calls, no
      accepted message is left without an interest in writing. */
  lemma RunStaysArmed<E>(s: Endpoint<E>, evs: seq<Event<E>>)
    requires Armed(s) && EntryAgrees(s) && forall ev :: ev in evs ==> HarmlessEvent(ev)
    ensures Armed(DeliverAll(s, evs)) && ArmedThroughout(s, evs)
  {
    HarmlessRun(s, evs);
    RunArmedIff(s, evs);
  }

  // ------------------------------------------------------------------ drain

  /** The send raises no event that makes the device drop or replace its handle. */
  ghost predicate Steady<E>(k: Kind, out: SendOutcome<E>) {
    out.Raised? ==> if out.event.ErrorRaised? then !k.UdpClient? else !k.TcpClient?
  }

  ghost function AsStreams(ms: seq<Payload>): (r: seq<Attempt>)
    ensures |r| == |ms| && forall i :: 0 <= i < |r| ==> r[i] == Stream(ms[i], true)
  {
    seq(|ms|, i requires 0 <= i < |ms| => Stream(ms[i], true))
  }

  ghost function AsDatagrams(ms: seq<Outgoing>): (r: seq<Attempt>)
    ensures |r| == |ms| && forall i :: 0 <= i < |r| ==> r[i] == Datagram(ms[i], true)
  {
    seq(|ms|, i requires 0 <= i < |ms| => Datagram(ms[i], true))
  }

  /** What is pending, in the order it is due: the datagrams first, but for a multicaster
      the stream messages. */
  ghost function Order<E>(s: Endpoint<E>): (r: seq<Attempt>)
    ensures |r| == |s.io.pending| + |s.net.pending|
  {
    InOrder(s.kind.Multicaster?, s.io.pending, s.net.pending)
  }

  ghost function InOrder(streamsFirst: bool, io: seq<Payload>, net: seq<Outgoing>): (r: seq<Attempt>)
    ensures |r| == |io| + |net|
  {
    if streamsFirst then AsStreams(io) + AsDatagrams(net) else AsDatagrams(net) + AsStreams(io)
  }

  ghost function Min(a: nat, b: nat): nat {
    if a <= b then a else b
  }

  /** How many of the first n messages due are from the stream queue. */
  ghost function FromIo<E>(s: Endpoint<E>, n: nat): (r: nat)
    requires n <= |s.io.pending| + |s.net.pending|
    ensures r <= |s.io.pending| && r <= n && n - r <= |s.net.pending|
  {
    if s.kind.Multicaster? then Min(n, |s.io.pending|) else n - Min(n, |s.net.pending|)
  }

  /** The first n messages due have been handed over, and nothing else has changed. */
  ghost function Drained<E>(s: Endpoint<E>, n: nat): Endpoint<E>
    requires n <= |s.io.pending| + |s.net.pending|
  {
    var k := FromIo(s, n);
    s.(io := s.io.(pending := s.io.pending[k..]), net := s.net.(pending := s.net.pending[n - k..]),
       attempts := s.attempts + Order(s)[..n])
  }

  ghost function WriteEvents<E>(s: Endpoint<E>, outs: seq<SendOutcome<E>>, n: nat): Endpoint<E>
    requires n <= |outs|
  {
    if n == 0 then s else Deliver(WriteEvents(s, outs, n - 1), ReadyWrite(outs[n - 1]))
  }

  lemma SteadySend<E>(s: Endpoint<E>, m: Payload, out: SendOutcome<E>)
    requires s.entry.Some? && Steady(s.kind, out)
    ensures var s1 := PerformSyncSend(s, m, true, out).0;
            SetEntry(s1, PollOut) == SetEntry(Logged(s, Stream(m, true)), PollOut) && s1.io == s.io
  {
  }

  /** The message due next, whichever queue it is in, is handed over and taken off. */
  lemma NextDue<E>(t: Endpoint<E>, out: SendOutcome<E>)
    requires t.entry == Some(PollOut) && t.handle.Some? && Steady(t.kind, out) && Order(t) != []
    ensures var t1 := Deliver(t, ReadyWrite(out));
            t1 == (if Order(t)[0].Stream? then t.(io := t.io.Pop()) else t.(net := t.net.Pop()))
                  .(attempts := t.attempts + [Order(t)[0]])
  {
    hide PerformSyncSend;
    if SendsStream(t) {
      SteadySend(t, t.io.pending[0], out);
    }
  }

  lemma DropFirst<T>(a: seq<T>, b: seq<T>, n: nat)
    requires n <= |a| + |b|
    ensures (a + b)[n..] == a[Min(n, |a|)..] + b[n - Min(n, |a|)..]
  {
  }

  lemma AttemptsFrom(io: seq<Payload>, net: seq<Outgoing>, k: nat)
    ensures k <= |io| ==> AsStreams(io[k..]) == AsStreams(io)[k..]
    ensures k <= |net| ==> AsDatagrams(net[k..]) == AsDatagrams(net)[k..]
  {
  }

  lemma OrderFrom(streamsFirst: bool, io: seq<Payload>, net: seq<Outgoing>, k: nat, n: nat)
    requires k <= |io| && k <= n && n - k <= |net|
    requires if streamsFirst then k == Min(n, |io|) else n - k == Min(n, |net|)
    ensures InOrder(streamsFirst, io[k..], net[n - k..]) == InOrder(streamsFirst, io, net)[n..]
  {
    hide AsStreams, AsDatagrams;
    AttemptsFrom(io, net, k);
    AttemptsFrom(io, net, n - k);
    if streamsFirst {
      DropFirst(AsStreams(io), AsDatagrams(net), n);
    } else {
      DropFirst(AsDatagrams(net), AsStreams(io), n);
    }
  }

  lemma DrainedOrder<E>(s: Endpoint<E>, n: nat)
    requires n <= |s.io.pending| + |s.net.pending|
    ensures Order(Drained(s, n)) == Order(s)[n..]
  {
    hide InOrder;
    OrderFrom(s.kind.Multicaster?, s.io.pending, s.net.pending, FromIo(s, n), n);
  }

  /** The message due at place n comes from the queue that has given one more then. */
  lemma FromIoNext<E>(s: Endpoint<E>, n: nat)
    requires n < |s.io.pending| + |s.net.pending|
    ensures FromIo(s, n + 1) == FromIo(s, n) + if Order(s)[n].Stream? then 1 else 0
  {
  }

  lemma PopAfter<M>(q: Queue<M>, k: nat)
    requires k < |q.pending|
    ensures q.(pending := q.pending[k..]).Pop() == q.(pending := q.pending[k + 1..])
  {
  }

  lemma SliceNext<T>(log: seq<T>, order: seq<T>, n: nat)
    requires n < |order|
    ensures log + order[..n] + [order[n]] == log + order[..n + 1]
  {
  }

  /** Taking off the message due at place n leaves the queues as they are after n + 1. */
  lemma DrainedPop<E>(s: Endpoint<E>, n: nat)
    requires n < |s.io.pending| + |s.net.pending|
    ensures var t, a := Drained(s, n), Order(s)[n];
            (if a.Stream? then t.(io := t.io.Pop()) else t.(net := t.net.Pop())).(attempts := t.attempts + [a])
            == Drained(s, n + 1)
  {
    hide Order, FromIo, Queue.Pop;
    var k := FromIo(s, n);
    FromIoNext(s, n);
    SliceNext(s.attempts, Order(s), n);
    if Order(s)[n].Stream? {
      PopAfter(s.io, k);
    } else {
      PopAfter(s.net, n - k);
    }
  }

  /** While something is pending, a write event hands over exactly the message due next,
      and the interest stays in writing. */
  lemma DrainStep<E>(s: Endpoint<E>, out: SendOutcome<E>, n: nat)
    requires s.entry == Some(PollOut) && s.handle.Some? && Steady(s.kind, out)
    requires n < |s.io.pending| + |s.net.pending|
    ensures Deliver(Drained(s, n), ReadyWrite(out)) == Drained(s, n + 1)
  {
    hide Deliver, Order;
    DrainedOrder(s, n);
    NextDue(Drained(s, n), out);
    DrainedPop(s, n);
  }

  lemma DrainedNone<E>(s: Endpoint<E>)
    ensures Drained(s, 0) == s
  {
    hide Order;
    assert s.attempts + Order(s)[..0] == s.attempts;
  }

  lemma DrainedEntry<E>(s: Endpoint<E>, n: nat)
    requires n <= |s.io.pending| + |s.net.pending|
    ensures Drained(s, n).entry == s.entry
  {
  }

  lemma DrainedAll<E>(s: Endpoint<E>)
    ensures Drained(s, |s.io.pending| + |s.net.pending|) ==
            s.(io := s.io.(pending := []), net := s.net.(pending := []), attempts := s.attempts + Order(s))
  {
    hide Order;
    var n := |s.io.pending| + |s.net.pending|;
    assert Order(s)[..n] == Order(s);
    assert Drained(s, n).io.pending == [] && Drained(s, n).net.pending == [];
  }

  lemma {:induction false} DrainPrefix<E>(s: Endpoint<E>, outs: seq<SendOutcome<E>>, n: nat)
    requires s.entry == Some(PollOut) && s.handle.Some?
    requires forall out :: out in outs ==> Steady(s.kind, out)
    requires n <= |outs| && n <= |s.io.pending| + |s.net.pending|
    ensures WriteEvents(s, outs, n) == Drained(s, n)
  {
    hide Drained, Deliver, Steady, Order, Min, FromIo;
    if n == 0 {
      DrainedNone(s);
    } else {
      DrainPrefix(s, outs, n - 1);
      DrainStep(s, outs[n - 1], n - 1);
    }
  }

  lemma NothingDue<E>(t: Endpoint<E>, out: SendOutcome<E>)
    requires t.entry.Some? && !Pending(t)
    ensures Deliver(t, ReadyWrite(out)) == t.(entry := Some(PollIn))
  {
  }

  /** With m and n messages pending and the interest in writing, m + n write events hand
      over every message, one each, in the order they are due, and one more turns the
      interest back to reading. */
  lemma DrainsCompletely<E>(s: Endpoint<E>, outs: seq<SendOutcome<E>>)
    requires s.entry == Some(PollOut) && s.handle.Some?
    requires |outs| == |s.io.pending| + |s.net.pending| + 1
    requires forall out :: out in outs ==> Steady(s.kind, out)
    ensures forall k: nat :: k < |outs| ==> WriteEvents(s, outs, k).entry == Some(PollOut)
    ensures WriteEvents(s, outs, |outs|) ==
            s.(io := s.io.(pending := []), net := s.net.(pending := []),
               attempts := s.attempts + Order(s), entry := Some(PollIn))
  {
    hide Drained, Order, Steady, Deliver, Min, FromIo;
    var n := |outs| - 1;
    forall k: nat | k < |outs| ensures WriteEvents(s, outs, k).entry == Some(PollOut) {
      DrainPrefix(s, outs, k);
      DrainedEntry(s, k);
    }
    DrainPrefix(s, outs, n);
    DrainedAll(s);
    NothingDue(Drained(s, n), outs[n]);
  }
}
