/** Which devices a dispatch round reaches: once each, and none by mistake unless a
    descriptor changes hands in the middle of the round. */
module DispatchLaws {
  import opened Basics
  import opened RegistryModel
  import opened RegistryLaws
  import opened Dispatch

  // ---------------------------------------------------- the six lists are disjoint

  lemma OfKindFrom(poll: seq<PollFd>, revents: seq<Events>, n: nat, k: Kind)
    requires n <= |poll| == |revents|
    ensures forall fd :: fd in OfKind(poll, revents, n, k) <==>
              exists i :: 0 <= i < n && poll[i].fd == fd && Classify(revents[i]) == Some(k)
  {
  }

  lemma OfKindDistinct(poll: seq<PollFd>, revents: seq<Events>, n: nat, k: Kind)
    requires n <= |poll| == |revents| && DistinctFds(poll)
    ensures Distinct(OfKind(poll, revents, n, k))
  {
    if n > 0 {
      OfKindDistinct(poll, revents, n - 1, k);
      OfKindFrom(poll, revents, n - 1, k);
      assert poll[n - 1].fd !in OfKind(poll, revents, n - 1, k);
    }
  }

  lemma OfKindDisjoint(poll: seq<PollFd>, revents: seq<Events>, j: Kind, k: Kind, fd: int)
    requires |poll| == |revents| && DistinctFds(poll)
    requires fd in OfKind(poll, revents, |poll|, j) && fd in OfKind(poll, revents, |poll|, k)
    ensures j == k
  {
    OfKindFrom(poll, revents, |poll|, j);
    OfKindFrom(poll, revents, |poll|, k);
  }

  ghost predicate DistinctTurns(turns: seq<Turn>) {
    forall i, j :: 0 <= i < j < |turns| ==> turns[i].1 != turns[j].1
  }

  lemma JoinTurns(a: seq<Turn>, b: seq<Turn>)
    requires DistinctTurns(a) && DistinctTurns(b)
    requires forall i, j :: 0 <= i < |a| && 0 <= j < |b| ==> a[i].1 != b[j].1
    ensures DistinctTurns(a + b)
  {
  }

  /** A list of turns whose descriptors all come from the classes in ks. */
  ghost predicate Drawn(turns: seq<Turn>, poll: seq<PollFd>, revents: seq<Events>, ks: set<Kind>)
    requires |poll| == |revents|
  {
    && DistinctTurns(turns)
    && forall i :: 0 <= i < |turns| ==>
         turns[i].0 in ks && turns[i].1 in OfKind(poll, revents, |poll|, turns[i].0)
  }

  lemma DrawnOne(poll: seq<PollFd>, revents: seq<Events>, k: Kind)
    requires |poll| == |revents| && DistinctFds(poll)
    ensures Drawn(Tagged(k, OfKind(poll, revents, |poll|, k)), poll, revents, {k})
  {
    OfKindDistinct(poll, revents, |poll|, k);
  }

  lemma DrawnJoin(a: seq<Turn>, b: seq<Turn>, poll: seq<PollFd>, revents: seq<Events>, ks: set<Kind>, k: Kind)
    requires |poll| == |revents| && DistinctFds(poll) && k !in ks
    requires Drawn(a, poll, revents, ks) && Drawn(b, poll, revents, {k})
    ensures Drawn(a + b, poll, revents, ks + {k})
  {
    forall i, j | 0 <= i < |a| && 0 <= j < |b| ensures a[i].1 != b[j].1 {
      if a[i].1 == b[j].1 {
        OfKindDisjoint(poll, revents, a[i].0, b[j].0, a[i].1);
      }
    }
    JoinTurns(a, b);
  }

  /** No descriptor is in two lists or twice in one, so a round has at most one
      callback per descriptor, of the class its revents fell in. */
  lemma ScheduleDistinct(poll: seq<PollFd>, revents: seq<Events>)
    requires |poll| == |revents| && DistinctFds(poll)
    ensures var turns := Schedule(FullScan(poll, revents, |poll|));
            && DistinctTurns(turns)
            && forall t :: t in turns ==>
                 exists i :: 0 <= i < |poll| && poll[i].fd == t.1 && Classify(revents[i]) == Some(t.0)
  {
    var ks := [ReadyRead, ReadyWrite, ReadyError, ReadyHangup, ReadyInvalid, ReadyPeerGone];
    forall k: Kind ensures Drawn(Tagged(k, OfKind(poll, revents, |poll|, k)), poll, revents, {k}) {
      DrawnOne(poll, revents, k);
    }
    var s := FullScan(poll, revents, |poll|);
    var t1 := Tagged(ReadyRead, s.read);
    var t2 := t1 + Tagged(ReadyWrite, s.write);
    DrawnJoin(t1, Tagged(ReadyWrite, s.write), poll, revents, {ReadyRead}, ReadyWrite);
    var t3 := t2 + Tagged(ReadyError, s.error);
    DrawnJoin(t2, Tagged(ReadyError, s.error), poll, revents, {ReadyRead, ReadyWrite}, ReadyError);
    var t4 := t3 + Tagged(ReadyHangup, s.hangup);
    DrawnJoin(t3, Tagged(ReadyHangup, s.hangup), poll, revents, {ReadyRead, ReadyWrite} + {ReadyError}, ReadyHangup);
    var t5 := t4 + Tagged(ReadyInvalid, s.invalid);
    DrawnJoin(t4, Tagged(ReadyInvalid, s.invalid), poll, revents,
              {ReadyRead, ReadyWrite} + {ReadyError} + {ReadyHangup}, ReadyInvalid);
    DrawnJoin(t5, Tagged(ReadyPeerGone, s.gone), poll, revents,
              {ReadyRead, ReadyWrite} + {ReadyError} + {ReadyHangup} + {ReadyInvalid}, ReadyPeerGone);
    forall k: Kind, fd | fd in OfKind(poll, revents, |poll|, k)
      ensures exists i :: 0 <= i < |poll| && poll[i].fd == fd && Classify(revents[i]) == Some(k)
    {
      OfKindFrom(poll, revents, |poll|, k);
    }
  }

  /** The classes in the order in which their callbacks are made. */
  function Rank(k: Kind): nat {
    match k
    case ReadyRead => 0
    case ReadyWrite => 1
    case ReadyError => 2
    case ReadyHangup => 3
    case ReadyInvalid => 4
    case ReadyPeerGone => 5
  }

  /** Turns of classes up to rank n, ordered by class. */
  ghost predicate Ranked(turns: seq<Turn>, n: nat) {
    && (forall i :: 0 <= i < |turns| ==> Rank(turns[i].0) <= n)
    && forall i, j :: 0 <= i < j < |turns| ==> Rank(turns[i].0) <= Rank(turns[j].0)
  }

  lemma RankedJoin(turns: seq<Turn>, k: Kind, fds: seq<int>, n: nat)
    requires Ranked(turns, n) && n <= Rank(k)
    ensures Ranked(turns + Tagged(k, fds), Rank(k))
    ensures forall t :: t in turns + Tagged(k, fds) <==> t in turns || (t.0 == k && t.1 in fds)
  {
  }

  /** Every classified entry has its turn, and all reads come before all writes, all
      writes before all errors, and so on. */
  lemma ScheduleComplete(poll: seq<PollFd>, revents: seq<Events>)
    requires |poll| == |revents|
    ensures var turns := Schedule(FullScan(poll, revents, |poll|));
            && Ranked(turns, 5)
            && forall i, k :: 0 <= i < |poll| && Classify(revents[i]) == Some(k) ==> (k, poll[i].fd) in turns
  {
    var s := FullScan(poll, revents, |poll|);
    RankedJoin([], ReadyRead, s.read, 0);
    var t1 := [] + Tagged(ReadyRead, s.read);
    assert t1 == Tagged(ReadyRead, s.read);
    RankedJoin(t1, ReadyWrite, s.write, 0);
    var t2 := t1 + Tagged(ReadyWrite, s.write);
    RankedJoin(t2, ReadyError, s.error, 1);
    var t3 := t2 + Tagged(ReadyError, s.error);
    RankedJoin(t3, ReadyHangup, s.hangup, 2);
    var t4 := t3 + Tagged(ReadyHangup, s.hangup);
    RankedJoin(t4, ReadyInvalid, s.invalid, 3);
    var t5 := t4 + Tagged(ReadyInvalid, s.invalid);
    RankedJoin(t5, ReadyPeerGone, s.gone, 4);
    forall i, k | 0 <= i < |poll| && Classify(revents[i]) == Some(k)
      ensures (k, poll[i].fd) in Schedule(s)
    {
      OfKindFrom(poll, revents, |poll|, k);
    }
  }

  // ------------------------------------------------- the order within a class

  /** In the poll vector fd1 comes before fd2. */
  ghost predicate PollBefore(poll: seq<PollFd>, fd1: int, fd2: int) {
    exists a, b :: 0 <= a < b < |poll| && poll[a].fd == fd1 && poll[b].fd == fd2
  }

  ghost predicate ListedInOrder(fds: seq<int>, poll: seq<PollFd>) {
    forall i, j :: 0 <= i < j < |fds| ==> PollBefore(poll, fds[i], fds[j])
  }

  /** Turns of one class are in poll order. */
  ghost predicate InPollOrder(turns: seq<Turn>, poll: seq<PollFd>) {
    forall i, j :: 0 <= i < j < |turns| && turns[i].0 == turns[j].0 ==> PollBefore(poll, turns[i].1, turns[j].1)
  }

  lemma {:induction false} OfKindInOrder(poll: seq<PollFd>, revents: seq<Events>, n: nat, k: Kind)
    requires n <= |poll| == |revents|
    ensures ListedInOrder(OfKind(poll, revents, n, k), poll)
  {
    if n > 0 {
      OfKindInOrder(poll, revents, n - 1, k);
      var fds, all := OfKind(poll, revents, n - 1, k), OfKind(poll, revents, n, k);
      OfKindFrom(poll, revents, n - 1, k);
      forall i, j | 0 <= i < j < |all| ensures PollBefore(poll, all[i], all[j]) {
        if j == |fds| {
          assert all[i] == fds[i] && fds[i] in fds;
          var a :| 0 <= a < n - 1 && poll[a].fd == fds[i];
          assert poll[a].fd == all[i] && poll[n - 1].fd == all[j];
          assert PollBefore(poll, poll[a].fd, poll[n - 1].fd);
        } else {
          assert all[i] == fds[i] && all[j] == fds[j];
          assert PollBefore(poll, fds[i], fds[j]);
        }
      }
    }
  }

  lemma OrderedJoin(turns: seq<Turn>, poll: seq<PollFd>, revents: seq<Events>, k: Kind, n: nat)
    requires |poll| == |revents| && InPollOrder(turns, poll)
    requires Ranked(turns, n) && n < Rank(k)
    ensures InPollOrder(turns + Tagged(k, OfKind(poll, revents, |poll|, k)), poll)
    ensures Ranked(turns + Tagged(k, OfKind(poll, revents, |poll|, k)), Rank(k))
  {
    hide PollBefore, OfKind;
    OfKindInOrder(poll, revents, |poll|, k);
    RankedJoin(turns, k, OfKind(poll, revents, |poll|, k), n);
  }

  /** Within one class the descriptors come in the order of the poll vector. */
  lemma ScheduleInPollOrder(poll: seq<PollFd>, revents: seq<Events>)
    requires |poll| == |revents|
    ensures InPollOrder(Schedule(FullScan(poll, revents, |poll|)), poll)
  {
    hide InPollOrder, OfKind, Ranked;
    var s := FullScan(poll, revents, |poll|);
    FirstOrdered(poll, revents);
    var t1 := Tagged(ReadyRead, s.read);
    OrderedJoin(t1, poll, revents, ReadyWrite, 0);
    var t2 := t1 + Tagged(ReadyWrite, s.write);
    OrderedJoin(t2, poll, revents, ReadyError, 1);
    var t3 := t2 + Tagged(ReadyError, s.error);
    OrderedJoin(t3, poll, revents, ReadyHangup, 2);
    var t4 := t3 + Tagged(ReadyHangup, s.hangup);
    OrderedJoin(t4, poll, revents, ReadyInvalid, 3);
    var t5 := t4 + Tagged(ReadyInvalid, s.invalid);
    OrderedJoin(t5, poll, revents, ReadyPeerGone, 4);
  }

  lemma FirstOrdered(poll: seq<PollFd>, revents: seq<Events>)
    requires |poll| == |revents|
    ensures InPollOrder(Tagged(ReadyRead, OfKind(poll, revents, |poll|, ReadyRead)), poll)
    ensures Ranked(Tagged(ReadyRead, OfKind(poll, revents, |poll|, ReadyRead)), 0)
  {
    OfKindInOrder(poll, revents, |poll|, ReadyRead);
  }

  /** A device that is called has a poll entry in the engine that calls it. */
  lemma LiveCallHasEntry<E, D>(c: Call<E, D>, e: E)
    requires LiveCall(c, e)
    ensures Known(c.world, c.device) && Entry(c.world, c.device).Some?
  {
  }

  // ------------------------------------------------------ reached exactly once

  lemma StepsLeaveDevice<E, D>(w: World<E, D>, steps: seq<Step<E, D>>, k: nat, d: D)
    requires k <= |steps| && d in w.devices
    requires forall i :: 0 <= i < |steps| ==> steps[i].d != d
    ensures d in After(w, steps, k).devices && After(w, steps, k).devices[d] == w.devices[d]
  {
  }

  /** None of the first m callbacks calls the API about d. */
  ghost predicate Undisturbed<E, D>(script: seq<seq<Step<E, D>>>, m: nat, d: D) {
    forall c, s :: 0 <= c < m && s in ScriptAt(script, c) ==> s.d != d
  }

  lemma {:induction false} RoundLeavesDevice<E, D>(
    w: World<E, D>, e: E, turns: seq<Turn>, n: nat, script: seq<seq<Step<E, D>>>, d: D)
    requires n <= |turns| && d in w.devices && Undisturbed(script, |Round(w, e, turns, n, script).calls|, d)
    ensures var r := Round(w, e, turns, n, script); d in r.world.devices && r.world.devices[d] == w.devices[d]
  {
    hide After;
    if n > 0 {
      var r := Round(w, e, turns, n - 1, script);
      RoundLeavesDevice(w, e, turns, n - 1, script, d);
      if Round(w, e, turns, n, script) != r {
        var steps := ScriptAt(script, |r.calls|);
        StepsLeaveDevice(r.world, steps, |steps|, d);
      }
    }
  }

  lemma CallsGrow<E, D>(w: World<E, D>, e: E, turns: seq<Turn>, m: nat, n: nat, script: seq<seq<Step<E, D>>>)
    requires m <= n <= |turns|
    ensures Round(w, e, turns, m, script).calls <= Round(w, e, turns, n, script).calls
  {
  }

  lemma GuardedUpToTurn<E, D>(w: World<E, D>, e: E, turns: seq<Turn>, m: nat, n: nat, script: seq<seq<Step<E, D>>>)
    requires m <= n <= |turns| && RoundGuarded(w, e, turns, n, script)
    ensures RoundGuarded(w, e, turns, m, script)
  {
    if m < n {
      GuardedPrefix(w, e, turns, n, script);
      GuardedUpToTurn(w, e, turns, m, n - 1, script);
    }
  }

  lemma StillMapped<E, D>(w: World<E, D>, e: E, turns: seq<Turn>, n: nat, script: seq<seq<Step<E, D>>>, fd: int)
    requires Coherent(w) && e in w.engines && n <= |turns| && fd in w.engines[e].mapping
    requires RoundGuarded(w, e, turns, n, script)
    requires Undisturbed(script, |Round(w, e, turns, n, script).calls|, w.engines[e].mapping[fd])
    ensures var r := Round(w, e, turns, n, script);
            && e in r.world.engines && fd in r.world.engines[e].mapping
            && r.world.engines[e].mapping[fd] == w.engines[e].mapping[fd]
  {
    var d := w.engines[e].mapping[fd];
    var r := Round(w, e, turns, n, script);
    assert Agrees(e, w.engines[e], w.devices);
    assert w.devices[d].engine == Some(e) && w.devices[d].handle == Some(fd);
    RoundLeavesDevice(w, e, turns, n, script, d);
    RoundSafe(w, e, turns, n, script);
    assert Agrees(e, r.world.engines[e], r.world.devices);
    assert d in r.world.engines[e].list;
  }

  /** Call c is the only one for descriptor fd. */
  ghost predicate OnlyCall<E, D>(calls: seq<Call<E, D>>, c: nat, fd: int) {
    && c < |calls| && calls[c].fd == fd
    && forall b :: 0 <= b < |calls| && b != c ==> calls[b].fd != fd
  }

  /** A ready device that no callback before its own touches is called exactly once, for
      the class of its own event, whatever its own callback and later ones do. */
  lemma UndisturbedCalledOnce<E, D>(w: World<E, D>, e: E, turns: seq<Turn>, script: seq<seq<Step<E, D>>>, i: nat)
    requires Coherent(w) && e in w.engines && DistinctTurns(turns) && i < |turns|
    requires RoundGuarded(w, e, turns, i, script)
    requires turns[i].1 in w.engines[e].mapping
    requires Undisturbed(script, |Round(w, e, turns, i, script).calls|, w.engines[e].mapping[turns[i].1])
    ensures var calls := Round(w, e, turns, |turns|, script).calls;
            exists c: nat :: OnlyCall(calls, c, turns[i].1)
              && calls[c].kind == turns[i].0 && calls[c].device == w.engines[e].mapping[turns[i].1]
  {
    hide Coherent, RoundGuarded, Undisturbed;
    var fd, d := turns[i].1, w.engines[e].mapping[turns[i].1];
    StillMapped(w, e, turns, i, script, fd);
    CallsGrow(w, e, turns, i + 1, |turns|, script);
    var r, all := Round(w, e, turns, i, script), Round(w, e, turns, |turns|, script);
    assert Round(w, e, turns, i + 1, script).calls == r.calls + [Call(turns[i].0, fd, d, r.world)];
    assert all.calls[|r.calls|] == Call(turns[i].0, fd, d, r.world);
    RoundAnswers(w, e, turns, |turns|, script);
    AnswersOnce(all.calls, turns, |turns|);
    assert OnlyCall(all.calls, |r.calls|, fd);
  }

  // ---------------------------------------- callbacks that keep to their device

  /** What poll() leaves the round with: distinct descriptors, all of them mapped. */
  ghost predicate Polled<E, D>(w: World<E, D>, e: E, turns: seq<Turn>) {
    && e in w.engines && DistinctTurns(turns)
    && forall i :: 0 <= i < |turns| ==> turns[i].1 in w.engines[e].mapping
  }

  lemma SchedulePolled<E, D>(w: World<E, D>, e: E, revents: seq<Events>)
    requires Coherent(w) && e in w.engines && |w.engines[e].poll| == |revents|
    ensures Polled(w, e, Schedule(FullScan(w.engines[e].poll, revents, |revents|)))
  {
    hide Schedule, FullScan;
    assert Agrees(e, w.engines[e], w.devices);
    var turns := Schedule(FullScan(w.engines[e].poll, revents, |revents|));
    ScheduleDistinct(w.engines[e].poll, revents);
    forall i | 0 <= i < |turns| ensures turns[i].1 in w.engines[e].mapping {
      assert turns[i] in turns;
    }
  }

  /** The device that turn i is for, as poll() saw it. */
  ghost function DeviceOf<E, D>(w: World<E, D>, e: E, turns: seq<Turn>, i: nat): D
    requires Polled(w, e, turns) && i < |turns|
  {
    w.engines[e].mapping[turns[i].1]
  }

  lemma DevicesDistinct<E, D>(w: World<E, D>, e: E, turns: seq<Turn>, i: nat, j: nat)
    requires Coherent(w) && Polled(w, e, turns) && i < |turns| && j < |turns|
    requires DeviceOf(w, e, turns, i) == DeviceOf(w, e, turns, j)
    ensures i == j
  {
    assert Agrees(e, w.engines[e], w.devices);
    assert turns[i].1 == turns[j].1;
  }

  /** Every callback calls the API about the device it was made on, and no other. */
  ghost predicate KeepsToItself<E, D>(calls: seq<Call<E, D>>, script: seq<seq<Step<E, D>>>) {
    forall c, s :: 0 <= c < |calls| && s in ScriptAt(script, c) ==> s.d == calls[c].device
  }

  /** The calls are the turns, one for one, each to the device that poll() meant. */
  ghost predicate AllServed<E, D>(w: World<E, D>, e: E, turns: seq<Turn>, calls: seq<Call<E, D>>)
    requires Polled(w, e, turns)
  {
    && |calls| <= |turns|
    && forall c :: 0 <= c < |calls| ==>
         calls[c].kind == turns[c].0 && calls[c].fd == turns[c].1 && calls[c].device == DeviceOf(w, e, turns, c)
  }

  /** Callbacks that keep to their own devices leave the later turns alone. */
  lemma OwnUndisturbed<E, D>(
    w: World<E, D>, e: E, turns: seq<Turn>, calls: seq<Call<E, D>>, script: seq<seq<Step<E, D>>>, i: nat)
    requires Coherent(w) && Polled(w, e, turns) && AllServed(w, e, turns, calls)
    requires KeepsToItself(calls, script) && |calls| <= i < |turns|
    ensures Undisturbed(script, |calls|, DeviceOf(w, e, turns, i))
  {
    forall c, s | 0 <= c < |calls| && s in ScriptAt(script, c) ensures s.d != DeviceOf(w, e, turns, i) {
      if s.d == DeviceOf(w, e, turns, i) {
        DevicesDistinct(w, e, turns, c, i);
      }
    }
  }

  /** When every callback keeps to its own device, whatever it closes, opens and gets
      back from the system, each due descriptor gets exactly its own call, in order, to
      the device whose event poll() reported; and those still waiting are untouched. */
  lemma {:induction false} OwnCallbacksServeAll<E, D>(
    w: World<E, D>, e: E, turns: seq<Turn>, n: nat, script: seq<seq<Step<E, D>>>)
    requires Coherent(w) && Polled(w, e, turns) && n <= |turns| && RoundGuarded(w, e, turns, n, script)
    requires KeepsToItself(Round(w, e, turns, n, script).calls, script)
    ensures var r := Round(w, e, turns, n, script);
            && |r.calls| == n && AllServed(w, e, turns, r.calls)
            && forall i :: n <= i < |turns| ==> Waiting(w, r.world, e, turns, i)
  {
    hide Coherent, Polled, RoundGuarded, Undisturbed, Waiting, After;
    var r := Round(w, e, turns, n, script);
    if n > 0 {
      var r0 := Round(w, e, turns, n - 1, script);
      GuardedPrefix(w, e, turns, n, script);
      CallsGrow(w, e, turns, n - 1, n, script);
      OwnCallbacksServeAll(w, e, turns, n - 1, script);
      WaitingMapped(w, r0.world, e, turns, n - 1);
      assert r.calls == r0.calls + [Call(turns[n - 1].0, turns[n - 1].1, DeviceOf(w, e, turns, n - 1), r0.world)];
    }
    forall i | n <= i < |turns| ensures Waiting(w, r.world, e, turns, i) {
      OwnUndisturbed(w, e, turns, r.calls, script, i);
      StillWaiting(w, e, turns, n, script, i);
    }
  }

  /** Turn i finds its descriptor with the device, and the device, as poll() left them. */
  ghost predicate Waiting<E, D>(w: World<E, D>, w1: World<E, D>, e: E, turns: seq<Turn>, i: nat)
    requires Polled(w, e, turns) && i < |turns|
  {
    var d := DeviceOf(w, e, turns, i);
    && e in w1.engines && Owner(w1, e, turns[i].1) == Some(d)
    && d in w.devices && d in w1.devices && w1.devices[d] == w.devices[d]
  }

  lemma WaitingMapped<E, D>(w: World<E, D>, w1: World<E, D>, e: E, turns: seq<Turn>, i: nat)
    requires Polled(w, e, turns) && i < |turns| && Waiting(w, w1, e, turns, i)
    ensures e in w1.engines && turns[i].1 in w1.engines[e].mapping
    ensures w1.engines[e].mapping[turns[i].1] == DeviceOf(w, e, turns, i)
  {
  }

  lemma StillWaiting<E, D>(
    w: World<E, D>, e: E, turns: seq<Turn>, n: nat, script: seq<seq<Step<E, D>>>, i: nat)
    requires Coherent(w) && Polled(w, e, turns) && n <= |turns| && i < |turns| && RoundGuarded(w, e, turns, n, script)
    requires Undisturbed(script, |Round(w, e, turns, n, script).calls|, DeviceOf(w, e, turns, i))
    ensures Waiting(w, Round(w, e, turns, n, script).world, e, turns, i)
  {
    hide Round, RoundGuarded, Undisturbed;
    assert Agrees(e, w.engines[e], w.devices);
    StillMapped(w, e, turns, n, script, turns[i].1);
    RoundLeavesDevice(w, e, turns, n, script, DeviceOf(w, e, turns, i));
  }

  // ------------------------------------------------------------ stale events

  /** The device that descriptor fd leads to in engine e. */
  ghost function Owner<E, D>(w: World<E, D>, e: E, fd: int): Option<D>
    requires e in w.engines
  {
    if fd in w.engines[e].mapping then Some(w.engines[e].mapping[fd]) else None
  }

  /** d is in engine e with handle fd. */
  ghost predicate Owns<E, D>(w: World<E, D>, d: D, e: E, fd: int) {
    d in w.devices && w.devices[d].engine == Some(e) && w.devices[d].handle == Some(fd)
  }

  lemma OwnerIff<E, D>(w: World<E, D>, d: D, e: E, fd: int)
    requires Coherent(w) && e in w.engines
    ensures Owner(w, e, fd) == Some(d) <==> Owns(w, d, e, fd)
  {
    assert Agrees(e, w.engines[e], w.devices);
  }

  /** The engine that a step registers its device with, if it does. */
  ghost function Joins<E, D>(w: World<E, D>, s: Step<E, D>): Option<E>
    requires Enabled(w, s)
  {
    match s
    case DoRegister(e, _) => Some(e)
    case DoRegisterChild(p, _) => w.devices[p].engine
    case _ => None
  }

  /** The step puts fd into engine e: the device joins with that handle, or is given the
      handle while it is there. */
  ghost predicate Puts<E, D>(w: World<E, D>, s: Step<E, D>, e: E, fd: int) {
    Enabled(w, s) &&
    if s.DoNewHandle? then s.h == Some(fd) && w.devices[s.d].engine == Some(e)
    else Joins(w, s) == Some(e) && w.devices[s.d].engine != Some(e) && w.devices[s.d].handle == Some(fd)
  }

  /** The step takes fd out of engine e: its owner leaves, or loses or changes the
      handle. */
  ghost predicate Takes<E, D>(w: World<E, D>, s: Step<E, D>, e: E, fd: int) {
    Enabled(w, s) && Owns(w, s.d, e, fd) &&
    match s
    case DoRegister(_, _) => Joins(w, s) != Some(e)
    case DoRegisterChild(_, _) => Joins(w, s).Some? && Joins(w, s) != Some(e)
    case DoNewHandle(_, h) => h != Some(fd)
    case DoRequest(_, _) => false
    case _ => true
  }

  /** What a step does to the device it is about, as far as ownership goes. */
  lemma StepOwns<E, D>(w: World<E, D>, s: Step<E, D>, e: E, fd: int)
    requires Coherent(w) && e in w.engines
    ensures Owns(Apply(w, s), s.d, e, fd) <==>
            Puts(w, s, e, fd) || (Owns(w, s.d, e, fd) && !Takes(w, s, e, fd))
  {
    if (s.DoRegister? || s.DoRegisterChild?) && Enabled(w, s) && Joins(w, s).Some? {
      var o := Joins(w, s).value;
      assert Agrees(o, w.engines[o], w.devices);
    }
  }

  /** A guarded step puts fd under its own device, takes it from its own device, or
      leaves it where it is. */
  lemma StepOwner<E, D>(w: World<E, D>, s: Step<E, D>, e: E, fd: int)
    requires Coherent(w) && Guard(w, s) && e in w.engines
    ensures e in Apply(w, s).engines
    ensures Owner(Apply(w, s), e, fd) ==
            if Puts(w, s, e, fd) then Some(s.d) else if Takes(w, s, e, fd) then None else Owner(w, e, fd)
  {
    hide Coherent, Guard, Apply, Puts, Takes, Owns, Owner;
    ApplyKeepsEngines(w, s);
    StepCoherentIff(w, s);
    var w1 := Apply(w, s);
    StepOwns(w, s, e, fd);
    TakesOwned(w, s, e, fd);
    forall d ensures Owner(w1, e, fd) == Some(d) <==> Owns(w1, d, e, fd)
             ensures Owner(w, e, fd) == Some(d) <==> Owns(w, d, e, fd)
             ensures d != s.d ==> (Owns(w1, d, e, fd) <==> Owns(w, d, e, fd))
    {
      OwnerIff(w1, d, e, fd);
      OwnerIff(w, d, e, fd);
      if d != s.d {
        OthersOwn(w, s, d, e, fd);
      }
    }
    SameOption(Owner(w1, e, fd),
               if Puts(w, s, e, fd) then Some(s.d) else if Takes(w, s, e, fd) then None else Owner(w, e, fd));
  }

  lemma SameOption<T>(a: Option<T>, b: Option<T>)
    requires forall x :: a == Some(x) <==> b == Some(x)
    ensures a == b
  {
    if a.Some? {
      assert a == Some(a.value);
    } else if b.Some? {
      assert b == Some(b.value);
    }
  }

  lemma ApplyKeepsEngines<E, D>(w: World<E, D>, s: Step<E, D>)
    ensures Apply(w, s).engines.Keys == w.engines.Keys
  {
    AfterKeepsEngines(w, [s], 1);
    assert After(w, [s], 1) == Apply(After(w, [s], 0), s);
  }

  lemma TakesOwned<E, D>(w: World<E, D>, s: Step<E, D>, e: E, fd: int)
    ensures Takes(w, s, e, fd) ==> Owns(w, s.d, e, fd)
  {
  }

  lemma OthersOwn<E, D>(w: World<E, D>, s: Step<E, D>, d: D, e: E, fd: int)
    requires d != s.d
    ensures Owns(Apply(w, s), d, e, fd) <==> Owns(w, d, e, fd)
  {
  }

  /** None of the steps m to n - 1 puts fd into engine e or takes it out. */
  ghost predicate Untouched<E, D>(w: World<E, D>, steps: seq<Step<E, D>>, m: nat, n: nat, e: E, fd: int)
    requires n <= |steps|
  {
    forall j :: m <= j < n ==>
      !Puts(After(w, steps, j), steps[j], e, fd) && !Takes(After(w, steps, j), steps[j], e, fd)
  }

  /** Step k is the last of the first n that put fd into engine e, and none has taken it
      out since. */
  ghost predicate PutLast<E, D>(w: World<E, D>, steps: seq<Step<E, D>>, n: nat, k: nat, e: E, fd: int)
    requires n <= |steps|
  {
    k < n && Puts(After(w, steps, k), steps[k], e, fd) && Untouched(w, steps, k + 1, n, e, fd)
  }

  ghost predicate PutLastFor<E, D>(w: World<E, D>, steps: seq<Step<E, D>>, n: nat, e: E, fd: int, d: D)
    requires n <= |steps|
  {
    exists k: nat :: PutLast(w, steps, n, k, e, fd) && steps[k].d == d
  }

  lemma UntouchedStep<E, D>(w: World<E, D>, steps: seq<Step<E, D>>, m: nat, n: nat, e: E, fd: int)
    requires m < n <= |steps|
    ensures Untouched(w, steps, m, n, e, fd) <==>
            && Untouched(w, steps, m, n - 1, e, fd)
            && !Puts(After(w, steps, n - 1), steps[n - 1], e, fd)
            && !Takes(After(w, steps, n - 1), steps[n - 1], e, fd)
  {
    hide Puts, Takes, After;
  }

  lemma PutLastStep<E, D>(w: World<E, D>, steps: seq<Step<E, D>>, n: nat, e: E, fd: int, d: D)
    requires 0 < n <= |steps|
    ensures var at, s := After(w, steps, n - 1), steps[n - 1];
            PutLastFor(w, steps, n, e, fd, d) <==>
            if Puts(at, s, e, fd) then s.d == d
            else !Takes(at, s, e, fd) && PutLastFor(w, steps, n - 1, e, fd, d)
  {
    hide Puts, Takes, After, Untouched;
    var at, s := After(w, steps, n - 1), steps[n - 1];
    forall k: nat | k + 1 < n
      ensures PutLast(w, steps, n, k, e, fd) <==>
              PutLast(w, steps, n - 1, k, e, fd) && !Puts(at, s, e, fd) && !Takes(at, s, e, fd)
    {
      UntouchedStep(w, steps, k + 1, n, e, fd);
    }
    NothingAfter(w, steps, n, e, fd);
    assert PutLast(w, steps, n, n - 1, e, fd) <==> Puts(at, s, e, fd);
  }

  lemma NothingAfter<E, D>(w: World<E, D>, steps: seq<Step<E, D>>, n: nat, e: E, fd: int)
    requires n <= |steps|
    ensures Untouched(w, steps, n, n, e, fd)
  {
  }

  /** After any guarded steps, fd leads to d exactly when the last step that moved fd put
      it under d, or d owned it at the start and none moved it. */
  lemma {:induction false} OwnerAfterIff<E, D>(w: World<E, D>, steps: seq<Step<E, D>>, n: nat, e: E, fd: int, d: D)
    requires Coherent(w) && e in w.engines && n <= |steps| && GuardedUpTo(w, steps, n)
    ensures e in After(w, steps, n).engines
    ensures Owner(After(w, steps, n), e, fd) == Some(d) <==>
            || PutLastFor(w, steps, n, e, fd, d)
            || (Untouched(w, steps, 0, n, e, fd) && Owner(w, e, fd) == Some(d))
  {
    hide Puts, Takes, Apply, Coherent, Guard, Untouched, PutLastFor;
    if n > 0 {
      OwnerAfterIff(w, steps, n - 1, e, fd, d);
      RunCoherentIff(w, steps, n - 1);
      CoherentAt(w, steps, n - 1);
      StepOwner(After(w, steps, n - 1), steps[n - 1], e, fd);
      PutLastStep(w, steps, n, e, fd, d);
      UntouchedStep(w, steps, 0, n, e, fd);
    } else {
      NothingAfter(w, steps, 0, e, fd);
      NothingPut(w, steps, e, fd, d);
    }
  }

  lemma NothingPut<E, D>(w: World<E, D>, steps: seq<Step<E, D>>, e: E, fd: int, d: D)
    ensures !PutLastFor(w, steps, 0, e, fd, d)
  {
  }

  lemma CoherentAt<E, D>(w: World<E, D>, steps: seq<Step<E, D>>, n: nat)
    requires n <= |steps| && CoherentUpTo(w, steps, n)
    ensures Coherent(After(w, steps, n))
  {
  }

  /** All steps that the first c callbacks take, in order. */
  ghost function Flat<E, D>(script: seq<seq<Step<E, D>>>, c: nat): seq<Step<E, D>> {
    if c == 0 then [] else Flat(script, c - 1) + ScriptAt(script, c - 1)
  }

  /** The world of a call is what the steps before it made of the polled one. */
  lemma {:induction false} WorldOfCall<E, D>(
    w: World<E, D>, e: E, turns: seq<Turn>, n: nat, script: seq<seq<Step<E, D>>>)
    requires n <= |turns|
    ensures var r := Round(w, e, turns, n, script);
            && r.world == After(w, Flat(script, |r.calls|), |Flat(script, |r.calls|)|)
            && forall c :: 0 <= c < |r.calls| ==>
                 r.calls[c].world == After(w, Flat(script, c), |Flat(script, c)|)
  {
    hide After;
    if n == 0 {
      AfterNone(w, Flat(script, 0));
    } else {
      WorldOfCall(w, e, turns, n - 1, script);
      var r := Round(w, e, turns, n - 1, script);
      AfterBoth(w, Flat(script, |r.calls|), ScriptAt(script, |r.calls|), |ScriptAt(script, |r.calls|)|);
    }
  }

  lemma CallGuarded<E, D>(w: World<E, D>, e: E, turns: seq<Turn>, n: nat, script: seq<seq<Step<E, D>>>, c: nat)
    requires n <= |turns| && RoundGuarded(w, e, turns, n, script) && c < |Round(w, e, turns, n, script).calls|
    ensures var steps := ScriptAt(script, c);
            GuardedUpTo(Round(w, e, turns, n, script).calls[c].world, steps, |steps|)
  {
  }

  /** The steps before call c meet their guards one after the other. */
  lemma {:induction false} FlatGuarded<E, D>(
    w: World<E, D>, e: E, turns: seq<Turn>, n: nat, script: seq<seq<Step<E, D>>>, c: nat)
    requires n <= |turns| && RoundGuarded(w, e, turns, n, script) && c <= |Round(w, e, turns, n, script).calls|
    ensures GuardedUpTo(w, Flat(script, c), |Flat(script, c)|)
  {
    hide After, GuardedUpTo, Round, RoundGuarded;
    AfterNone(w, Flat(script, 0));
    if c > 0 {
      FlatGuarded(w, e, turns, n, script, c - 1);
      WorldOfCall(w, e, turns, n, script);
      CallGuarded(w, e, turns, n, script, c - 1);
      GuardedBoth(w, Flat(script, c - 1), ScriptAt(script, c - 1), |ScriptAt(script, c - 1)|);
    }
  }

  lemma LiveCallOwner<E, D>(c: Call<E, D>, e: E)
    requires LiveCall(c, e)
    ensures e in c.world.engines && Owner(c.world, e, c.fd) == Some(c.device)
  {
  }

  /** A call for fd goes to a device other than the one that owned fd when poll()
      reported it exactly when the last step before the call that put fd into this engine
      was about another device, and no step has taken it out since. */
  lemma WrongCallIff<E, D>(
    w: World<E, D>, e: E, turns: seq<Turn>, n: nat, script: seq<seq<Step<E, D>>>, c: nat)
    requires Coherent(w) && e in w.engines && n <= |turns| && RoundGuarded(w, e, turns, n, script)
    requires c < |Round(w, e, turns, n, script).calls|
    ensures var call, steps := Round(w, e, turns, n, script).calls[c], Flat(script, c);
            Owner(w, e, call.fd) != Some(call.device) <==>
            exists k: nat :: PutLast(w, steps, |steps|, k, e, call.fd) && Owner(w, e, call.fd) != Some(steps[k].d)
  {
    hide Coherent, After, Untouched, Puts, GuardedUpTo, Round, RoundGuarded, Flat, LiveCall, Owner;
    var call, steps := Round(w, e, turns, n, script).calls[c], Flat(script, c);
    WorldOfCall(w, e, turns, n, script);
    FlatGuarded(w, e, turns, n, script, c);
    RoundSafe(w, e, turns, n, script);
    LiveCallOwner(call, e);
    OwnerAfterIff(w, steps, |steps|, e, call.fd, call.device);
    if k: nat :| PutLast(w, steps, |steps|, k, e, call.fd) && Owner(w, e, call.fd) != Some(steps[k].d) {
      OwnerAfterIff(w, steps, |steps|, e, call.fd, steps[k].d);
    }
  }

  /** At its turn a due descriptor gets a call to d exactly when the last step that moved
      the descriptor put it under d, or d owned it when poll() reported it and none moved
      it; so whom the round calls, and whether, depends on the steps taken so far alone. */
  lemma TurnCallsIff<E, D>(
    w: World<E, D>, e: E, turns: seq<Turn>, n: nat, script: seq<seq<Step<E, D>>>, d: D)
    requires Coherent(w) && e in w.engines && n < |turns| && RoundGuarded(w, e, turns, n, script)
    ensures var r := Round(w, e, turns, n, script);
            var fd, steps := turns[n].1, Flat(script, |r.calls|);
            Round(w, e, turns, n + 1, script).calls == r.calls + [Call(turns[n].0, fd, d, r.world)] <==>
            || PutLastFor(w, steps, |steps|, e, fd, d)
            || (Untouched(w, steps, 0, |steps|, e, fd) && Owner(w, e, fd) == Some(d))
  {
    hide Coherent, After, Untouched, PutLastFor, GuardedUpTo, RoundGuarded, Flat, LiveCall;
    var r := Round(w, e, turns, n, script);
    WorldOfCall(w, e, turns, n, script);
    FlatGuarded(w, e, turns, n, script, |r.calls|);
    OwnerAfterIff(w, Flat(script, |r.calls|), |Flat(script, |r.calls|)|, e, turns[n].1, d);
    TurnCalls(r, e, turns[n], script, d);
  }

  lemma TurnCalls<E, D>(r: RoundState<E, D>, e: E, t: Turn, script: seq<seq<Step<E, D>>>, d: D)
    requires e in r.world.engines
    ensures TakeTurn(r, e, t, script).calls == r.calls + [Call(t.0, t.1, d, r.world)] <==>
            Owner(r.world, e, t.1) == Some(d)
  {
    var c := Call(t.0, t.1, d, r.world);
    assert |r.calls + [c]| > |r.calls| && (r.calls + [c])[|r.calls|] == c;
    if Owner(r.world, e, t.1).Some? {
      assert TakeTurn(r, e, t, script).calls[|r.calls|].device == Owner(r.world, e, t.1).value;
    }
  }

  /** So as long as no callback puts fd under another device, whoever is called for it is
      the device that owned it when poll() reported it; the device itself may close and
      reopen, and get its old number back. */
  lemma NoStaleCall<E, D>(
    w: World<E, D>, e: E, turns: seq<Turn>, n: nat, script: seq<seq<Step<E, D>>>, c: nat)
    requires Coherent(w) && e in w.engines && n <= |turns| && RoundGuarded(w, e, turns, n, script)
    requires c < |Round(w, e, turns, n, script).calls|
    requires var fd, steps := Round(w, e, turns, n, script).calls[c].fd, Flat(script, c);
             forall k :: 0 <= k < |steps| && Puts(After(w, steps, k), steps[k], e, fd) ==>
               Owner(w, e, fd) == Some(steps[k].d)
    ensures var call := Round(w, e, turns, n, script).calls[c]; Owner(w, e, call.fd) == Some(call.device)
  {
    WrongCallIff(w, e, turns, n, script, c);
  }

  // The inputs that show what reuse does: devices a and b own descriptors x and y,
  // device c has none; serving a closes y and gives the number to c.

  ghost function Holding<E>(e: E, h: Option<int>): DeviceState<E> {
    DeviceState(h, Some(e), Current(h), multiset{})
  }

  ghost function StaleStart<E, D>(e: E, a: D, b: D, c: D, x: int, y: int): World<E, D> {
    World(map[e := EngineState([PollFd(x, PollIn), PollFd(y, PollIn)], map[x := a, y := b], [a, b, c])],
          map[a := Holding(e, Some(x)), b := Holding(e, Some(y)), c := Holding(e, None)])
  }

  lemma StaleStartCoherent<E, D>(e: E, a: D, b: D, c: D, x: int, y: int)
    requires a != b && b != c && a != c && x != y
    ensures Coherent(StaleStart(e, a, b, c, x, y))
  {
    var w := StaleStart(e, a, b, c, x, y);
    var poll := w.engines[e].poll;
    assert poll[0].fd == x && poll[1].fd == y;
    assert HasFd(poll, x) && HasFd(poll, y);
    assert Agrees(e, w.engines[e], w.devices);
  }

  /** The same world shows what the guard of a run is for: c is given the descriptor that
      is b's, or a live handle is replaced by none, and the registry disagrees. */
  lemma SharingBreaks<E, D>(e: E, a: D, b: D, c: D, x: int, y: int)
    requires a != b && b != c && a != c && x != y
    ensures var w := StaleStart(e, a, b, c, x, y);
            && Coherent(w)
            && !GuardedUpTo(w, [DoNewHandle(c, Some(y))], 1) && !CoherentUpTo(w, [DoNewHandle(c, Some(y))], 1)
            && !GuardedUpTo(w, [DoNewHandle(b, None)], 1) && !CoherentUpTo(w, [DoNewHandle(b, None)], 1)
  {
    var w := StaleStart(e, a, b, c, x, y);
    StaleStartCoherent(e, a, b, c, x, y);
    hide Coherent, CoherentUpTo;
    forall d, h | (d == c && h == Some(y)) || (d == b && h == None)
      ensures !GuardedUpTo(w, [DoNewHandle(d, h)], 1) && !CoherentUpTo(w, [DoNewHandle(d, h)], 1)
    {
      AfterNone(w, [DoNewHandle(d, h)]);
      assert !Guard(w, DoNewHandle(d, h));
      RunCoherentIff(w, [DoNewHandle(d, h)], 1);
    }
  }

  lemma StaleStepsRun<E, D>(e: E, a: D, b: D, c: D, x: int, y: int)
    requires a != b && b != c && a != c && x != y
    ensures var w, steps := StaleStart(e, a, b, c, x, y), [DoDestroyHandle(b), DoNewHandle(c, Some(y))];
            var w2 := After(w, steps, 2);
            && GuardedUpTo(w, steps, 2)
            && e in w2.engines && y in w2.engines[e].mapping && w2.engines[e].mapping[y] == c
  {
    var w, steps := StaleStart(e, a, b, c, x, y), [DoDestroyHandle(b), DoNewHandle(c, Some(y))];
    assert w.engines[e].poll[1].fd == y;
    var w1 := Apply(w, steps[0]);
    assert w1.engines[e].mapping == map[x := a];
    assert w1.devices[c] == Holding(e, None);
    assert After(w, steps, 1) == w1;
    assert GuardedUpTo(w, steps, 1);
    assert Apply(w1, steps[1]).engines[e].mapping[y] == c;
  }

  /** With reuse the wrong device is called: c receives the error that was reported
      for b. */
  lemma StaleCallPossible<E, D>(e: E, a: D, b: D, c: D, x: int, y: int)
    requires a != b && b != c && a != c && x != y
    ensures var w, turns := StaleStart(e, a, b, c, x, y), [(ReadyRead, x), (ReadyError, y)];
            var script := [[DoDestroyHandle(b), DoNewHandle(c, Some(y))]];
            var calls := Round(w, e, turns, 2, script).calls;
            && Coherent(w) && RoundGuarded(w, e, turns, 2, script)
            && w.engines[e].mapping[y] == b
            && |calls| == 2 && calls[1].kind == ReadyError && calls[1].fd == y && calls[1].device == c
  {
    hide Coherent, Apply;
    var w, turns := StaleStart(e, a, b, c, x, y), [(ReadyRead, x), (ReadyError, y)];
    var steps := [DoDestroyHandle(b), DoNewHandle(c, Some(y))];
    var script := [steps];
    StaleStartCoherent(e, a, b, c, x, y);
    StaleStepsRun(e, a, b, c, x, y);
    var w2 := After(w, steps, 2);
    var r0: RoundState<E, D> := RoundState(w, []);
    assert Round(w, e, turns, 0, script) == r0;
    var r1 := Round(w, e, turns, 1, script);
    assert r1 == RoundState(w2, [Call(ReadyRead, x, a, w)]);
    assert Round(w, e, turns, 2, script).calls == r1.calls + [Call(ReadyError, y, c, w2)];
    assert GuardedUpTo(w2, ScriptAt(script, 1), 0);
  }
}
