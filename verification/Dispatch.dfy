/** One dispatch round of the engine: the early-exit scan of what poll() reported,
    and the callbacks, which may call the registry API while the round goes on. */
module Dispatch {
  import opened Basics
  import opened RegistryModel
  import opened RegistryLaws

  // -------------------------------------------------------------- the scan

  type Events = bv16

  const POLLIN: Events := 0x0001
  const POLLOUT: Events := 0x0004
  const POLLERR: Events := 0x0008
  const POLLHUP: Events := 0x0010
  const POLLNVAL: Events := 0x0020
  const POLLRDHUP: Events := 0x2000

  /** Which of the six ready callbacks an entry is due. */
  datatype Kind = ReadyRead | ReadyWrite | ReadyError | ReadyHangup | ReadyInvalid | ReadyPeerGone

  /** POLLIN and POLLOUT count only alone; the other flags are tested in this order. */
  function Classify(revents: Events): Option<Kind> {
    if revents == POLLIN then Some(ReadyRead)
    else if revents == POLLOUT then Some(ReadyWrite)
    else if revents & POLLERR != 0 then Some(ReadyError)
    else if revents & POLLHUP != 0 then Some(ReadyHangup)
    else if revents & POLLNVAL != 0 then Some(ReadyInvalid)
    else if revents & POLLRDHUP != 0 then Some(ReadyPeerGone)
    else None
  }

  /** The descriptors of one class among the first n entries, in poll order. */
  ghost function OfKind(poll: seq<PollFd>, revents: seq<Events>, n: nat, k: Kind): seq<int>
    requires n <= |poll| == |revents|
  {
    if n == 0 then []
    else OfKind(poll, revents, n - 1, k)
         + (if Classify(revents[n - 1]) == Some(k) then [poll[n - 1].fd] else [])
  }

  ghost function ClassifiedIn(revents: seq<Events>, n: nat): nat
    requires n <= |revents|
  {
    if n == 0 then 0 else ClassifiedIn(revents, n - 1) + (if Classify(revents[n - 1]).Some? then 1 else 0)
  }

  /** What poll() returns: the number of entries with non-zero revents. */
  ghost function ReadyIn(revents: seq<Events>, n: nat): nat
    requires n <= |revents|
  {
    if n == 0 then 0 else ReadyIn(revents, n - 1) + (if revents[n - 1] != 0 then 1 else 0)
  }

  lemma ClassifiedAreReady(revents: seq<Events>, m: nat, n: nat)
    requires m <= n <= |revents|
    ensures ClassifiedIn(revents, n) - ClassifiedIn(revents, m) <= ReadyIn(revents, n) - ReadyIn(revents, m)
    ensures ClassifiedIn(revents, m) <= ClassifiedIn(revents, n)
  {
  }

  /** Past a point where nothing is classified, no list grows. */
  lemma NothingMore(poll: seq<PollFd>, revents: seq<Events>, m: nat, n: nat, k: Kind)
    requires m <= n <= |poll| == |revents|
    requires ClassifiedIn(revents, m) == ClassifiedIn(revents, n)
    ensures OfKind(poll, revents, m, k) == OfKind(poll, revents, n, k)
  {
    if m < n {
      ClassifiedAreReady(revents, m, n - 1);
      NothingMore(poll, revents, m, n - 1, k);
    }
  }

  /** Stopping as soon as `res` entries are classified loses none of them. */
  lemma EarlyExitComplete(poll: seq<PollFd>, revents: seq<Events>, m: nat)
    requires m <= |poll| == |revents|
    requires ClassifiedIn(revents, m) >= ReadyIn(revents, |revents|)
    ensures forall k :: OfKind(poll, revents, m, k) == OfKind(poll, revents, |poll|, k)
  {
    ClassifiedAreReady(revents, 0, m);
    ClassifiedAreReady(revents, m, |revents|);
    forall k ensures OfKind(poll, revents, m, k) == OfKind(poll, revents, |poll|, k) {
      NothingMore(poll, revents, m, |poll|, k);
    }
  }

  datatype Snapshot = Snapshot(
    read: seq<int>, write: seq<int>, error: seq<int>, hangup: seq<int>, invalid: seq<int>, gone: seq<int>)

  /** The six lists that classifying every one of the first n entries gives. */
  ghost function FullScan(poll: seq<PollFd>, revents: seq<Events>, n: nat): Snapshot
    requires n <= |poll| == |revents|
  {
    Snapshot(OfKind(poll, revents, n, ReadyRead), OfKind(poll, revents, n, ReadyWrite),
             OfKind(poll, revents, n, ReadyError), OfKind(poll, revents, n, ReadyHangup),
             OfKind(poll, revents, n, ReadyInvalid), OfKind(poll, revents, n, ReadyPeerGone))
  }

  /** The scanning loop of awaitOnceUpto. */
  method Scan(poll: seq<PollFd>, revents: seq<Events>, res: int) returns (s: Snapshot)
    requires |poll| == |revents| && res == ReadyIn(revents, |revents|)
    ensures s == FullScan(poll, revents, |poll|)
  {
    s := Snapshot([], [], [], [], [], []);
    var count := 0;
    var i := 0;
    while i < |poll|
      invariant i <= |poll|
      invariant count == ClassifiedIn(revents, i)
      invariant s == FullScan(poll, revents, i)
    {
      var fd := poll[i].fd;
      match Classify(revents[i]) {
        case Some(ReadyRead) => s := s.(read := s.read + [fd]); count := count + 1;
        case Some(ReadyWrite) => s := s.(write := s.write + [fd]); count := count + 1;
        case Some(ReadyError) => s := s.(error := s.error + [fd]); count := count + 1;
        case Some(ReadyHangup) => s := s.(hangup := s.hangup + [fd]); count := count + 1;
        case Some(ReadyInvalid) => s := s.(invalid := s.invalid + [fd]); count := count + 1;
        case Some(ReadyPeerGone) => s := s.(gone := s.gone + [fd]); count := count + 1;
        case None =>
      }
      i := i + 1;
      if count >= res {
        EarlyExitComplete(poll, revents, i);
        break;
      }
    }
  }

  /** poll() reports only what was asked for, plus errors, hangups and bad
      descriptors. */
  ghost predicate Reported(interest: Interest, revents: Events) {
    var asked := if interest.PollIn? then POLLIN else POLLOUT;
    revents & (asked | POLLERR | POLLHUP | POLLNVAL) == revents
  }

  /** Since a device asks for exactly one of POLLIN and POLLOUT, every ready entry gets
      exactly one callback: an error before a hangup before a bad descriptor, and reading
      or writing only when nothing is wrong.  Since none asks for POLLRDHUP, the sixth
      callback is never made. */
  lemma ReadyIsClassified(interest: Interest, revents: Events)
    requires Reported(interest, revents)
    ensures var k := Classify(revents);
            var err, hup, nval := revents & POLLERR != 0, revents & POLLHUP != 0, revents & POLLNVAL != 0;
            && (k == None <==> revents == 0)
            && (k == Some(ReadyError) <==> err)
            && (k == Some(ReadyHangup) <==> !err && hup)
            && (k == Some(ReadyInvalid) <==> !err && !hup && nval)
            && (k == Some(ReadyRead) <==> revents != 0 && !err && !hup && !nval && interest.PollIn?)
            && (k == Some(ReadyWrite) <==> revents != 0 && !err && !hup && !nval && interest.PollOut?)
            && k != Some(ReadyPeerGone)
  {
  }

  // ------------------------------------------------------------- the round

  type Turn = (Kind, int)

  function Tagged(k: Kind, fds: seq<int>): (r: seq<Turn>)
    ensures |r| == |fds| && forall i :: 0 <= i < |r| ==> r[i] == (k, fds[i])
  {
    seq(|fds|, i requires 0 <= i < |fds| => (k, fds[i]))
  }

  /** The order of the callbacks: list by list, each in poll order. */
  function Schedule(s: Snapshot): seq<Turn> {
    Tagged(ReadyRead, s.read) + Tagged(ReadyWrite, s.write) + Tagged(ReadyError, s.error)
    + Tagged(ReadyHangup, s.hangup) + Tagged(ReadyInvalid, s.invalid) + Tagged(ReadyPeerGone, s.gone)
  }

  /** A callback made, and the world at that moment. */
  datatype Call<E, D> = Call(kind: Kind, fd: int, device: D, world: World<E, D>)

  datatype RoundState<E, D> = RoundState(world: World<E, D>, calls: seq<Call<E, D>>)

  /** What the n-th callback of the round does to the registry. */
  function ScriptAt<E, D>(script: seq<seq<Step<E, D>>>, n: nat): seq<Step<E, D>> {
    if n < |script| then script[n] else []
  }

  ghost function TakeTurn<E, D>(r: RoundState<E, D>, e: E, t: Turn, script: seq<seq<Step<E, D>>>): RoundState<E, D>
  {
    if e in r.world.engines && t.1 in r.world.engines[e].mapping then
      var steps := ScriptAt(script, |r.calls|);
      RoundState(After(r.world, steps, |steps|),
                 r.calls + [Call(t.0, t.1, r.world.engines[e].mapping[t.1], r.world)])
    else r
  }

  /** The first n turns of a round: each due descriptor that is still mapped at its
      turn gets its callback, which then runs its script. */
  ghost function Round<E, D>(w: World<E, D>, e: E, turns: seq<Turn>, n: nat, script: seq<seq<Step<E, D>>>)
    : RoundState<E, D>
    requires n <= |turns|
  {
    if n == 0 then RoundState(w, []) else TakeTurn(Round(w, e, turns, n - 1, script), e, turns[n - 1], script)
  }

  /** Every step that a callback of the first n turns takes meets its guard. */
  ghost predicate RoundGuarded<E, D>(w: World<E, D>, e: E, turns: seq<Turn>, n: nat, script: seq<seq<Step<E, D>>>)
    requires n <= |turns|
  {
    forall c :: 0 <= c < |Round(w, e, turns, n, script).calls| ==>
      var steps := ScriptAt(script, c);
      GuardedUpTo(Round(w, e, turns, n, script).calls[c].world, steps, |steps|)
  }

  /** The device called owns the descriptor and is listed, in this engine, now. */
  ghost predicate LiveCall<E, D>(c: Call<E, D>, e: E) {
    && Coherent(c.world) && e in c.world.engines && c.device in c.world.devices
    && c.device in c.world.engines[e].list
    && c.fd in c.world.engines[e].mapping && c.world.engines[e].mapping[c.fd] == c.device
    && c.world.devices[c.device].engine == Some(e)
    && c.world.devices[c.device].handle == Some(c.fd)
  }

  /** The turns that were answered by a call, in order. */
  ghost predicate Answers<E, D>(calls: seq<Call<E, D>>, turns: seq<Turn>, n: nat)
    requires n <= |turns|
  {
    if n == 0 then calls == []
    else
      || Answers(calls, turns, n - 1)
      || (|calls| > 0 && (calls[|calls| - 1].kind, calls[|calls| - 1].fd) == turns[n - 1]
          && Answers(calls[..|calls| - 1], turns, n - 1))
  }

  lemma AfterKeepsEngines<E, D>(w: World<E, D>, steps: seq<Step<E, D>>, k: nat)
    requires k <= |steps|
    ensures After(w, steps, k).engines.Keys == w.engines.Keys
  {
  }

  lemma GuardedPrefix<E, D>(w: World<E, D>, e: E, turns: seq<Turn>, n: nat, script: seq<seq<Step<E, D>>>)
    requires 0 < n <= |turns| && RoundGuarded(w, e, turns, n, script)
    ensures RoundGuarded(w, e, turns, n - 1, script)
  {
  }

  lemma TurnSafe<E, D>(r: RoundState<E, D>, e: E, t: Turn, script: seq<seq<Step<E, D>>>)
    requires Coherent(r.world) && e in r.world.engines
    requires t.1 in r.world.engines[e].mapping ==>
               var steps := ScriptAt(script, |r.calls|); GuardedUpTo(r.world, steps, |steps|)
    ensures var r1 := TakeTurn(r, e, t, script);
            && Coherent(r1.world) && e in r1.world.engines
            && (t.1 in r.world.engines[e].mapping ==> LiveCall(r1.calls[|r.calls|], e))
  {
    if t.1 in r.world.engines[e].mapping {
      assert Agrees(e, r.world.engines[e], r.world.devices);
      var steps := ScriptAt(script, |r.calls|);
      RunCoherentIff(r.world, steps, |steps|);
      AfterKeepsEngines(r.world, steps, |steps|);
    }
  }

  lemma {:induction false} RoundAnswers<E, D>(
    w: World<E, D>, e: E, turns: seq<Turn>, n: nat, script: seq<seq<Step<E, D>>>)
    requires n <= |turns|
    ensures Answers(Round(w, e, turns, n, script).calls, turns, n)
  {
    if n > 0 {
      RoundAnswers(w, e, turns, n - 1, script);
      var r, r1 := Round(w, e, turns, n - 1, script), Round(w, e, turns, n, script);
      if r1 != r {
        assert r1.calls[..|r.calls|] == r.calls;
      }
    }
  }

  /** Whatever guarded steps the callbacks take, each call goes to a device that is
      listed here and owns the descriptor at that moment, and the registry ends
      coherent. */
  lemma {:induction false} RoundSafe<E, D>(w: World<E, D>, e: E, turns: seq<Turn>, n: nat, script: seq<seq<Step<E, D>>>)
    requires Coherent(w) && e in w.engines && n <= |turns| && RoundGuarded(w, e, turns, n, script)
    ensures var r := Round(w, e, turns, n, script);
            && Coherent(r.world) && e in r.world.engines
            && forall c :: 0 <= c < |r.calls| ==> LiveCall(r.calls[c], e)
  {
    hide Coherent, GuardedUpTo, LiveCall, After;
    if n > 0 {
      GuardedPrefix(w, e, turns, n, script);
      RoundSafe(w, e, turns, n - 1, script);
      var r := Round(w, e, turns, n - 1, script);
      if turns[n - 1].1 in r.world.engines[e].mapping {
        assert Round(w, e, turns, n, script).calls[|r.calls|].world == r.world;
      }
      TurnSafe(r, e, turns[n - 1], script);
    }
  }

  lemma AnswersInTurns<E, D>(calls: seq<Call<E, D>>, turns: seq<Turn>, n: nat)
    requires n <= |turns| && Answers(calls, turns, n)
    ensures |calls| <= n
    ensures forall c :: 0 <= c < |calls| ==> (calls[c].kind, calls[c].fd) in turns[..n]
  {
    if n > 0 {
      if Answers(calls, turns, n - 1) {
        AnswersInTurns(calls, turns, n - 1);
      } else {
        AnswersInTurns(calls[..|calls| - 1], turns, n - 1);
      }
      assert turns[..n] == turns[..n - 1] + [turns[n - 1]];
    }
  }

  /** Descriptors occur once in the schedule, so each is called at most once. */
  lemma {:induction false} AnswersOnce<E, D>(calls: seq<Call<E, D>>, turns: seq<Turn>, n: nat)
    requires n <= |turns| && Answers(calls, turns, n)
    requires forall i, j :: 0 <= i < j < |turns| ==> turns[i].1 != turns[j].1
    ensures forall a, b :: 0 <= a < b < |calls| ==> calls[a].fd != calls[b].fd
  {
    if n > 0 {
      if Answers(calls, turns, n - 1) {
        AnswersOnce(calls, turns, n - 1);
      } else {
        var rest := calls[..|calls| - 1];
        AnswersOnce(rest, turns, n - 1);
        AnswersInTurns(rest, turns, n - 1);
        forall a | 0 <= a < |rest| ensures calls[a].fd != turns[n - 1].1 {
          var i :| 0 <= i < n - 1 && turns[i] == (rest[a].kind, rest[a].fd);
        }
      }
    }
  }
}
