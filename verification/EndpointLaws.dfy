/** What every run of a network device keeps of its messages: nothing that was accepted
    is lost, repeated or reordered on its way to the system. */
module EndpointLaws {
  import opened Basics
  import opened EndpointModel

  // ------------------------------------------------------------ conservation

  /** The stream messages that were handed over from the queue, in order. */
  ghost function Streams(log: seq<Attempt>): seq<Payload> {
    if log == [] then []
    else
      var a := log[|log| - 1];
      Streams(log[..|log| - 1]) + if a.Stream? && a.queued then [a.data] else []
  }

  /** The datagrams that were handed over from the queue, in order. */
  ghost function Datagrams(log: seq<Attempt>): seq<Outgoing> {
    if log == [] then []
    else
      var a := log[|log| - 1];
      Datagrams(log[..|log| - 1]) + if a.Datagram? && a.queued then [a.message] else []
  }

  /** Everything accepted has been handed over, in order and once, or is still pending
      behind that. */
  ghost predicate Conserved<E>(s: Endpoint<E>) {
    && s.io.accepted == Streams(s.attempts) + s.io.pending
    && s.net.accepted == Datagrams(s.attempts) + s.net.pending
  }

  /** q1 is q with some more messages at its end. */
  ghost predicate Extends<M>(q: Queue<M>, q1: Queue<M>) {
    && q.pending <= q1.pending && q.accepted <= q1.accepted
    && q1.accepted[|q.accepted|..] == q1.pending[|q.pending|..]
  }

  /** From s to s1 messages were queued and sent directly, and none left a queue. */
  ghost predicate BothExtend<E>(s: Endpoint<E>, s1: Endpoint<E>) {
    && Extends(s.io, s1.io) && Extends(s.net, s1.net) && s1.kind == s.kind
    && s.attempts <= s1.attempts
    && Streams(s1.attempts) == Streams(s.attempts) && Datagrams(s1.attempts) == Datagrams(s.attempts)
  }

  lemma ExtendsTransitive<M>(a: Queue<M>, b: Queue<M>, c: Queue<M>)
    requires Extends(a, b) && Extends(b, c)
    ensures Extends(a, c)
  {
    var n, m := |a.pending|, |a.accepted|;
    calc {
      c.accepted[m..];
      c.accepted[m..|b.accepted|] + c.accepted[|b.accepted|..];
      { assert c.accepted[m..|b.accepted|] == b.accepted[m..]; }
      b.accepted[m..] + c.accepted[|b.accepted|..];
      b.pending[n..] + c.pending[|b.pending|..];
      { assert c.pending[n..|b.pending|] == b.pending[n..]; }
      c.pending[n..];
    }
  }

  lemma BothExtendTransitive<E>(a: Endpoint<E>, b: Endpoint<E>, c: Endpoint<E>)
    requires BothExtend(a, b) && BothExtend(b, c)
    ensures BothExtend(a, c)
  {
    hide Extends, Streams, Datagrams;
    ExtendsTransitive(a.io, b.io, c.io);
    ExtendsTransitive(a.net, b.net, c.net);
  }

  /** Handing a message over enters it in the log of its queue, or in none if it is the
      argument of a synchronous send. */
  lemma LoggedStreams<E>(s: Endpoint<E>, a: Attempt)
    ensures var log := Logged(s, a).attempts;
            && Streams(log) == Streams(s.attempts) + (if a.Stream? && a.queued then [a.data] else [])
            && Datagrams(log) == Datagrams(s.attempts) + (if a.Datagram? && a.queued then [a.message] else [])
  {
    assert Logged(s, a).attempts[..|s.attempts|] == s.attempts;
  }

  lemma DirectExtends<E>(s: Endpoint<E>, a: Attempt)
    requires !a.queued
    ensures BothExtend(s, Logged(s, a))
  {
    LoggedStreams(s, a);
  }

  /** What does not touch the messages extends trivially. */
  lemma SameExtends<E>(s: Endpoint<E>, s1: Endpoint<E>)
    requires s1.io == s.io && s1.net == s.net && s1.attempts == s.attempts && s1.kind == s.kind
    ensures BothExtend(s, s1)
  {
  }

  lemma PushExtends<E>(s: Endpoint<E>, c: Call<E>)
    requires c.AsyncSend? || c.SendTo?
    ensures BothExtend(s, Perform(s, c).0)
  {
  }

  /** No API call, and nothing it sets off, takes a message out of a queue or into its
      log; it can only add messages at the end. */
  lemma {:induction false} PerformExtends<E>(s: Endpoint<E>, c: Call<E>)
    ensures BothExtend(s, Perform(s, c).0)
    decreases c, 0
  {
    hide Extends, Streams, Datagrams;
    if c.SyncSend? && c.data.Some? {
      var a := Stream(c.data.value, false);
      DirectExtends(s, a);
      SyncSendExtends(s, c.data.value, false, c.outcome);
      BothExtendTransitive(s, Logged(s, a), PerformSyncSend(s, c.data.value, false, c.outcome).0);
    } else if c.SyncSendTo? && c.data.Some? {
      DirectExtends(s, Datagram(Outgoing(c.dest, c.data.value), false));
    } else if c.AsyncSend? || c.SendTo? {
      PushExtends(s, c);
    } else {
      SameExtends(s, Perform(s, c).0);
    }
  }

  /** Once the message has been handed over, a synchronous send and its hooks take
      nothing out of the queues. */
  lemma {:induction false} SyncSendExtends<E>(s: Endpoint<E>, m: Payload, queued: bool, out: SendOutcome<E>)
    ensures BothExtend(Logged(s, Stream(m, queued)), PerformSyncSend(s, m, queued, out).0)
    decreases out, 1
  {
    if out.Raised? {
      HookExtends(Logged(s, Stream(m, queued)), out);
    }
  }

  lemma {:induction false} HookExtends<E>(s: Endpoint<E>, out: SendOutcome<E>)
    requires out.Raised?
    ensures BothExtend(s, Hook(s, out))
    decreases out, 0
  {
    PerformAllExtends(PeerLost(s), out.handler);
    assert PeerDisconnected(s, out.handler) == PerformAll(PeerLost(s), out.handler);
  }

  lemma {:induction false} PerformAllExtends<E>(s: Endpoint<E>, cs: seq<Call<E>>)
    ensures BothExtend(s, PerformAll(s, cs))
    decreases cs, 0
  {
    if cs != [] {
      var s1 := Perform(s, cs[0]).0;
      PerformExtends(s, cs[0]);
      PerformAllExtends(s1, cs[1..]);
      BothExtendTransitive(s, s1, PerformAll(s, cs));
    }
  }

  /** What is queued while a message is with the system comes after it. */
  lemma ExtendsSplit<M>(q: Queue<M>, q1: Queue<M>, sent: seq<M>)
    requires Extends(q, q1) && q.accepted == sent + q.pending
    ensures q1.accepted == sent + q1.pending
  {
    var n, m := |q.pending|, |q.accepted|;
    calc {
      q1.accepted;
      q1.accepted[..m] + q1.accepted[m..];
      (sent + q.pending) + q1.pending[n..];
      sent + (q1.pending[..n] + q1.pending[n..]);
      { assert q1.pending[..n] + q1.pending[n..] == q1.pending; }
      sent + q1.pending;
    }
  }

  lemma ExtendConserves<E>(s: Endpoint<E>, s1: Endpoint<E>)
    requires BothExtend(s, s1) && Conserved(s)
    ensures Conserved(s1)
  {
    ExtendsSplit(s.io, s1.io, Streams(s.attempts));
    ExtendsSplit(s.net, s1.net, Datagrams(s.attempts));
  }

  /** The queue and the log disagree by its front while that is being sent, whatever is
      queued meanwhile, and removing one message, not more, makes them agree again. */
  lemma PopRestores<M>(q: Queue<M>, q1: Queue<M>, sent: seq<M>)
    requires q.pending != [] && q.accepted == sent + q.pending && Extends(q, q1)
    ensures q1.accepted == (sent + [q.pending[0]]) + q1.Pop().pending
  {
    ExtendsSplit(q, q1, sent);
    assert q1.pending == [q.pending[0]] + q1.pending[1..];
  }

  /** A write event of a device whose stream queue is served through performSyncSend. */
  lemma IoWriteConserves<E>(s: Endpoint<E>, out: SendOutcome<E>)
    requires Conserved(s)
    ensures Conserved(IoReadyWrite(s, out))
  {
    hide PerformSyncSend, Streams, Datagrams, Extends;
    if s.io.pending != [] && s.handle.Some? {
      var m := s.io.pending[0];
      var s1 := PerformSyncSend(s, m, true, out).0;
      SyncSendExtends(s, m, true, out);
      LoggedStreams(s, Stream(m, true));
      PopRestores(s.io, s1.io, Streams(s.attempts));
      ExtendsSplit(s.net, s1.net, Datagrams(s.attempts));
    }
  }

  lemma NetWriteConserves<E>(s: Endpoint<E>, out: SendOutcome<E>)
    requires Conserved(s)
    ensures Conserved(NetReadyWrite(s, out))
  {
    hide IoReadyWrite, Streams, Datagrams;
    if s.net.pending == [] {
      IoWriteConserves(s, out);
    } else {
      LoggedStreams(s, Datagram(s.net.pending[0], true));
      PopRestores(s.net, s.net, Datagrams(s.attempts));
    }
  }

  lemma WriteConserves<E>(s: Endpoint<E>, out: SendOutcome<E>)
    requires Conserved(s)
    ensures Conserved(DoReadyWrite(s, out))
  {
    hide NetReadyWrite, Streams, Datagrams;
    NetWriteConserves(s, out);
    if s.io.pending != [] {
      LoggedStreams(s, Stream(s.io.pending[0], true));
      PopRestores(s.io, s.io, Streams(s.attempts));
    }
  }

  lemma HandlerExtends<E>(s: Endpoint<E>, handler: seq<Call<E>>)
    ensures BothExtend(s, PerformAll(s, handler)) && BothExtend(s, PeerDisconnected(s, handler))
  {
    PerformAllExtends(s, handler);
    PerformAllExtends(PeerLost(s), handler);
  }

  lemma OtherExtends<E>(s: Endpoint<E>, ev: Event<E>)
    requires !ev.ReadyWrite?
    ensures BothExtend(s, Deliver(s, ev))
  {
    hide Perform, PerformAll, PeerDisconnected, BothExtend;
    SameExtends(s, s);
    if ev.Api? {
      PerformExtends(s, ev.call);
    } else if ev.ReadyError? {
      SameExtends(s, DoConnect(s, ev.lookup).0);
    } else {
      HandlerExtends(s, ev.handler);
    }
  }

  lemma DeliverConserves<E>(s: Endpoint<E>, ev: Event<E>)
    requires Conserved(s)
    ensures Conserved(Deliver(s, ev))
  {
    hide Conserved, BothExtend, DoReadyWrite;
    if ev.ReadyWrite? {
      WriteConserves(s, ev.outcome);
    } else {
      OtherExtends(s, ev);
      ExtendConserves(s, Deliver(s, ev));
    }
  }

  /** The logs only ever get longer. */
  ghost predicate LogsGrow<E>(s: Endpoint<E>, s1: Endpoint<E>) {
    s.io.accepted <= s1.io.accepted && s.net.accepted <= s1.net.accepted && s.attempts <= s1.attempts
  }

  lemma WriteGrows<E>(s: Endpoint<E>, out: SendOutcome<E>)
    ensures LogsGrow(s, DoReadyWrite(s, out))
  {
    hide PerformSyncSend, Streams, Datagrams;
    if SendsStream(s) {
      hide DoReadyWrite;
      WriteEffect(s, out);
      SyncSendExtends(s, s.io.pending[0], true, out);
    }
  }

  lemma DeliverGrows<E>(s: Endpoint<E>, ev: Event<E>)
    ensures LogsGrow(s, Deliver(s, ev))
  {
    hide DoReadyWrite, Extends, Streams, Datagrams;
    if ev.ReadyWrite? {
      WriteGrows(s, ev.outcome);
    } else {
      hide Deliver;
      OtherExtends(s, ev);
      ExtendGrows(s, Deliver(s, ev));
    }
  }

  lemma ExtendGrows<E>(s: Endpoint<E>, s1: Endpoint<E>)
    requires BothExtend(s, s1)
    ensures LogsGrow(s, s1)
  {
  }

  /** Over every run of sends, write events, failures, disconnects, reconnects and
      calls made from inside handlers, in each queue what was accepted is what was
      handed to the system followed by what is pending, and no log is ever rewritten. */
  lemma {:induction false} RunConserves<E>(s: Endpoint<E>, evs: seq<Event<E>>)
    requires Conserved(s)
    ensures Conserved(DeliverAll(s, evs)) && LogsGrow(s, DeliverAll(s, evs))
    decreases |evs|
  {
    hide Conserved, Deliver;
    if evs != [] {
      DeliverConserves(s, evs[0]);
      DeliverGrows(s, evs[0]);
      RunConserves(Deliver(s, evs[0]), evs[1..]);
    }
  }
}
