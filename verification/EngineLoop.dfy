/** Engine::awaitOnceUpto on the objects themselves: the round that Dispatch
    describes as a value. */
module EngineLoop {
  import opened RegistryModel
  import opened RegistryLaws
  import opened Registry
  import opened Dispatch

  method PerformRegistration(s: Step<Engine, Device>, u: Universe)
    requires u.Closed() && s.d in u.devices
    requires s.DoRegister? || s.DoDeregister? || s.DoRegisterChild?
    modifies u.engines, u.devices
    ensures u.Closed() && u.View() == Apply(old(u.View()), s)
  {
    match s
    case DoRegister(e, d) =>
      if e in u.engines {
        var _ := e.RegisterDevice(d, u);
      }
    case DoDeregister(e, d) =>
      if e in u.engines {
        var _ := e.DeRegisterDevice(d, u);
      }
    case DoRegisterChild(p, d) =>
      if p in u.devices {
        p.RegisterChildDevice(d, u);
      }
  }

  /** One API call made by a callback.  Destruction takes the device out of play, so
      the universe may shrink. */
  method Perform(s: Step<Engine, Device>, u: Universe) returns (v: Universe)
    requires u.Closed()
    modifies u.engines, u.devices
    ensures v.Closed() && v.engines == u.engines && v.devices <= u.devices
    ensures v.View() == Apply(old(u.View()), s)
  {
    hide Register, Deregister, NewHandle, DestroyHandle, Request;
    v := u;
    if s.d !in u.devices {
      return;
    }
    match s
    case DoRegister(_, _) => PerformRegistration(s, u);
    case DoDeregister(_, _) => PerformRegistration(s, u);
    case DoRegisterChild(_, _) => PerformRegistration(s, u);
    case DoNewHandle(d, h) => d.RegisterNewHandle(h, u);
    case DoDestroyHandle(d) => d.DestroyHandle(u);
    case DoRequest(d, i) =>
      if i == PollIn {
        d.RequestRead(u);
      } else {
        d.RequestWrite(u);
      }
    case DoDestruct(d) =>
      d.Destruct(u);
      v := u.(devices := u.devices - {d});
  }

  /** The body of one virtual callback: any sequence of API calls. */
  method Callback(steps: seq<Step<Engine, Device>>, u: Universe) returns (v: Universe)
    requires u.Closed()
    modifies u.engines, u.devices
    ensures v.Closed() && v.engines == u.engines && v.devices <= u.devices
    ensures v.View() == After(old(u.View()), steps, |steps|)
  {
    v := u;
    var i := 0;
    while i < |steps|
      invariant i <= |steps|
      invariant v.Closed() && v.engines == u.engines && v.devices <= u.devices
      invariant v.View() == After(old(u.View()), steps, i)
    {
      v := Perform(steps[i], v);
      i := i + 1;
    }
  }

  /** One of the six loops over a snapshot list: turns `at` to `at + |fds|`. */
  method ReadyLoop(e: Engine, u: Universe, kind: Kind, fds: seq<int>, script: seq<seq<Step<Engine, Device>>>,
                   made: nat, ghost turns: seq<Turn>, ghost trace: seq<RoundState<Engine, Device>>, ghost at: nat,
                   ghost calls: seq<Call<Engine, Device>>)
    returns (v: Universe, made': nat, ghost calls': seq<Call<Engine, Device>>)
    requires u.Closed() && e in u.engines
    requires at + |fds| <= |turns| && turns[at..at + |fds|] == Tagged(kind, fds)
    requires IsTrace(trace, e, turns, script)
    requires RoundState(u.View(), calls) == trace[at] && made == |calls|
    modifies u.engines, u.devices
    ensures v.Closed() && v.engines == u.engines && v.devices <= u.devices
    ensures RoundState(v.View(), calls') == trace[at + |fds|] && made' == |calls'|
  {
    v, made', calls' := u, made, calls;
    var i := 0;
    while i < |fds|
      invariant i <= |fds|
      invariant v.Closed() && v.engines == u.engines && v.devices <= u.devices
      invariant RoundState(v.View(), calls') == trace[at + i] && made' == |calls'|
    {
      assert turns[at + i] == turns[at..at + |fds|][i] == (kind, fds[i]);
      ghost var before := v.View();
      if fds[i] in e.deviceMapping {
        calls' := calls' + [Call(kind, fds[i], e.deviceMapping[fds[i]], before)];
        v := Callback(ScriptAt(script, made'), v);
        made' := made' + 1;
      }
      i := i + 1;
    }
  }

  /** The states of a round, from before its first turn to after its last. */
  ghost predicate IsTrace(trace: seq<RoundState<Engine, Device>>, e: Engine, turns: seq<Turn>,
                          script: seq<seq<Step<Engine, Device>>>) {
    && |trace| == |turns| + 1
    && forall i, j :: 0 <= i < |turns| && j == i + 1 ==> trace[j] == TakeTurn(trace[i], e, turns[i], script)
  }

  lemma TraceOfRound(w: World<Engine, Device>, e: Engine, turns: seq<Turn>, n: nat,
                     script: seq<seq<Step<Engine, Device>>>)
    returns (trace: seq<RoundState<Engine, Device>>)
    requires n <= |turns|
    ensures IsTrace(trace, e, turns[..n], script)
    ensures trace[0] == RoundState(w, []) && trace[n] == Round(w, e, turns, n, script)
  {
    if n == 0 {
      trace := [RoundState(w, [])];
    } else {
      trace := TraceOfRound(w, e, turns, n - 1, script);
      trace := trace + [Round(w, e, turns, n, script)];
    }
  }

  /** Turns a to b of the schedule are list fds. */
  ghost predicate Slice(turns: seq<Turn>, a: nat, b: nat, kind: Kind, fds: seq<int>) {
    a + |fds| == b <= |turns| && turns[a..b] == Tagged(kind, fds)
  }

  function Lists(s: Snapshot): (r: seq<(Kind, seq<int>)>)
    ensures |r| == 6
  {
    [(ReadyRead, s.read), (ReadyWrite, s.write), (ReadyError, s.error),
     (ReadyHangup, s.hangup), (ReadyInvalid, s.invalid), (ReadyPeerGone, s.gone)]
  }

  /** The schedule is the lists, one after the other, cut at these places. */
  ghost predicate CutAt(turns: seq<Turn>, lists: seq<(Kind, seq<int>)>, cuts: seq<nat>) {
    && |cuts| == |lists| + 1 && cuts[0] == 0 && cuts[|lists|] == |turns|
    && forall i, j :: 0 <= i < |lists| && j == i + 1 ==> Slice(turns, cuts[i], cuts[j], lists[i].0, lists[i].1)
  }

  lemma ScheduleSlices(s: Snapshot) returns (a1: nat, a2: nat, a3: nat, a4: nat, a5: nat)
    ensures var t := Schedule(s);
            && Slice(t, 0, a1, ReadyRead, s.read) && Slice(t, a1, a2, ReadyWrite, s.write)
            && Slice(t, a2, a3, ReadyError, s.error) && Slice(t, a3, a4, ReadyHangup, s.hangup)
            && Slice(t, a4, a5, ReadyInvalid, s.invalid) && Slice(t, a5, |t|, ReadyPeerGone, s.gone)
  {
    a1 := |s.read|;
    a2 := a1 + |s.write|;
    a3 := a2 + |s.error|;
    a4 := a3 + |s.hangup|;
    a5 := a4 + |s.invalid|;
  }

  lemma CutsOf(t: seq<Turn>, s: Snapshot, a1: nat, a2: nat, a3: nat, a4: nat, a5: nat)
    requires Slice(t, 0, a1, ReadyRead, s.read) && Slice(t, a1, a2, ReadyWrite, s.write)
    requires Slice(t, a2, a3, ReadyError, s.error) && Slice(t, a3, a4, ReadyHangup, s.hangup)
    requires Slice(t, a4, a5, ReadyInvalid, s.invalid) && Slice(t, a5, |t|, ReadyPeerGone, s.gone)
    ensures CutAt(t, Lists(s), [0, a1, a2, a3, a4, a5, |t|])
  {
  }

  lemma ScheduleCuts(s: Snapshot) returns (cuts: seq<nat>)
    ensures CutAt(Schedule(s), Lists(s), cuts)
  {
    var a1, a2, a3, a4, a5 := ScheduleSlices(s);
    CutsOf(Schedule(s), s, a1, a2, a3, a4, a5);
    cuts := [0, a1, a2, a3, a4, a5, |Schedule(s)|];
  }

  /** The six loops, one after the other. */
  method ServeLists(e: Engine, u: Universe, lists: seq<(Kind, seq<int>)>, script: seq<seq<Step<Engine, Device>>>,
                    ghost turns: seq<Turn>, ghost trace: seq<RoundState<Engine, Device>>, ghost cuts: seq<nat>)
    returns (v: Universe, ghost calls: seq<Call<Engine, Device>>)
    requires u.Closed() && e in u.engines && CutAt(turns, lists, cuts)
    requires IsTrace(trace, e, turns, script) && trace[0] == RoundState(u.View(), [])
    modifies u.engines, u.devices
    ensures v.Closed() && v.engines == u.engines && v.devices <= u.devices
    ensures RoundState(v.View(), calls) == trace[|turns|]
  {
    var made := 0;
    v, calls := u, [];
    var i := 0;
    while i < |lists|
      invariant i <= |lists| && cuts[i] <= |turns|
      invariant v.Closed() && v.engines == u.engines && v.devices <= u.devices
      invariant RoundState(v.View(), calls) == trace[cuts[i]] && made == |calls|
    {
      assert Slice(turns, cuts[i], cuts[i + 1], lists[i].0, lists[i].1);
      v, made, calls := ReadyLoop(e, v, lists[i].0, lists[i].1, script, made, turns, trace, cuts[i], calls);
      i := i + 1;
    }
  }

  method Serve(e: Engine, u: Universe, s: Snapshot, script: seq<seq<Step<Engine, Device>>>)
    returns (v: Universe, ghost calls: seq<Call<Engine, Device>>)
    requires u.Closed() && e in u.engines
    modifies u.engines, u.devices
    ensures v.Closed() && v.engines == u.engines && v.devices <= u.devices
    ensures RoundState(v.View(), calls) == Round(old(u.View()), e, Schedule(s), |Schedule(s)|, script)
  {
    ghost var turns := Schedule(s);
    ghost var cuts := ScheduleCuts(s);
    ghost var trace := TraceOfRound(u.View(), e, turns, |turns|, script);
    assert turns[..|turns|] == turns;
    v, calls := ServeLists(e, u, Lists(s), script, turns, trace, cuts);
  }

  lemma SafeRound(w: World<Engine, Device>, e: Engine, turns: seq<Turn>, script: seq<seq<Step<Engine, Device>>>)
    requires e in w.engines
    ensures var r := Round(w, e, turns, |turns|, script);
            Coherent(w) && RoundGuarded(w, e, turns, |turns|, script) ==>
              && Coherent(r.world) && |r.calls| <= |turns|
              && forall c :: 0 <= c < |r.calls| ==> LiveCall(r.calls[c], e)
  {
    hide Coherent, LiveCall, RoundGuarded, Round;
    var r := Round(w, e, turns, |turns|, script);
    RoundAnswers(w, e, turns, |turns|, script);
    AnswersInTurns(r.calls, turns, |turns|);
    if Coherent(w) && RoundGuarded(w, e, turns, |turns|, script) {
      RoundSafe(w, e, turns, |turns|, script);
    }
  }

  /** awaitOnceUpto, given what poll() wrote and returned, and what each callback
      does.  It reports false, and does nothing, when poll() found nothing. */
  method AwaitOnceUpto(e: Engine, u: Universe, revents: seq<Events>, res: int,
                       script: seq<seq<Step<Engine, Device>>>)
    returns (served: bool, v: Universe, ghost calls: seq<Call<Engine, Device>>)
    requires u.Closed() && e in u.engines
    requires |revents| == |e.pollDevices|
    requires res > 0 ==> res == ReadyIn(revents, |revents|)
    modifies u.engines, u.devices
    ensures v.Closed() && v.engines == u.engines && v.devices <= u.devices
    ensures served == (res > 0)
    ensures var turns := Schedule(FullScan(old(e.pollDevices), revents, |revents|));
            RoundState(v.View(), calls) ==
            if served then Round(old(u.View()), e, turns, |turns|, script) else RoundState(old(u.View()), [])
    ensures var turns := Schedule(FullScan(old(e.pollDevices), revents, |revents|));
            Coherent(old(u.View())) && RoundGuarded(old(u.View()), e, turns, |turns|, script) ==>
              && Coherent(v.View()) && |calls| <= |turns|
              && forall c :: 0 <= c < |calls| ==> LiveCall(calls[c], e)
  {
    hide Coherent, LiveCall, RoundGuarded, Round, FullScan, Schedule, Universe.View;
    v, calls := u, [];
    if res <= 0 {
      return false, v, calls;
    }
    served := true;
    var s := Scan(e.pollDevices, revents, res);
    v, calls := Serve(e, u, s, script);
    SafeRound(old(u.View()), e, Schedule(s), script);
  }
}
