/** What the registry steps mean: coherence over whole runs, and what each step
    leaves alone. */
module RegistryLaws {
  import opened Basics
  import opened RegistryModel

  /** One call of the registry API.  A device that does not exist yet is one that
      is in no engine and has no handle. */
  datatype Step<E, D> =
    | DoRegister(e: E, d: D)
    | DoDeregister(e: E, d: D)
    | DoRegisterChild(parent: D, d: D)
    | DoNewHandle(d: D, h: Option<int>)
    | DoDestroyHandle(d: D)
    | DoRequest(d: D, i: Interest)
    | DoDestruct(d: D)

  ghost predicate Enabled<E, D>(w: World<E, D>, s: Step<E, D>) {
    && Known(w, s.d)
    && (s.DoRegister? || s.DoDeregister? ==> s.e in w.engines)
    && (s.DoRegisterChild? ==> Known(w, s.parent))
  }

  /** The effect of a call; one that names a missing object cannot be made. */
  ghost function Apply<E, D>(w: World<E, D>, s: Step<E, D>): World<E, D> {
    if !Enabled(w, s) then w
    else match s
      case DoRegister(e, d) => Register(w, e, d)
      case DoDeregister(e, d) => Deregister(w, e, d)
      case DoRegisterChild(p, d) =>
        if w.devices[p].engine.None? then w else Register(w, w.devices[p].engine.value, d)
      case DoNewHandle(d, h) => NewHandle(w, d, h)
      case DoDestroyHandle(d) => DestroyHandle(w, d)
      case DoRequest(d, i) => Request(w, d, i)
      case DoDestruct(d) => Destruct(w, d)
  }

  ghost predicate MayRegister<E, D>(w: World<E, D>, e: E, d: D)
    requires e in w.engines && d in w.devices
  {
    !MappedElsewhere(w, e, w.devices[d].handle, d) || d in w.engines[e].list
  }

  /** What the caller owes: descriptors are not shared between devices, and a live
      handle is not replaced by an empty one. */
  ghost predicate Guard<E, D>(w: World<E, D>, s: Step<E, D>) {
    Enabled(w, s) ==>
      match s
      case DoRegister(e, d) => MayRegister(w, e, d)
      case DoDeregister(e, d) => !MappedElsewhere(w, e, w.devices[d].handle, d)
      case DoRegisterChild(p, d) =>
        w.devices[p].engine.Some? ==> MayRegister(w, w.devices[p].engine.value, d)
      case DoNewHandle(d, h) => HandleFits(w, d, h)
      case DoDestroyHandle(_) => true
      case DoRequest(_, _) => true
      case DoDestruct(_) => true
  }

  /** A step keeps the registry coherent exactly when its guard holds. */
  lemma StepCoherentIff<E, D>(w: World<E, D>, s: Step<E, D>)
    requires Coherent(w)
    ensures Coherent(Apply(w, s)) <==> Guard(w, s)
  {
    if Enabled(w, s) {
      match s
      case DoRegister(e, d) => RegisterCoherentIff(w, e, d);
      case DoDeregister(e, d) => DeregisterCoherentIff(w, e, d);
      case DoRegisterChild(p, d) =>
        if w.devices[p].engine.Some? {
          RegisterCoherentIff(w, w.devices[p].engine.value, d);
        }
      case DoNewHandle(d, h) => NewHandleCoherentIff(w, d, h);
      case DoDestroyHandle(d) => DestroyHandleKeeps(w, d);
      case DoRequest(d, i) => RequestKeeps(w, d, i);
      case DoDestruct(d) => DestructKeeps(w, d);
    }
  }

  ghost function After<E, D>(w: World<E, D>, steps: seq<Step<E, D>>, k: nat): World<E, D>
    requires k <= |steps|
  {
    if k == 0 then w else Apply(After(w, steps, k - 1), steps[k - 1])
  }

  ghost predicate CoherentUpTo<E, D>(w: World<E, D>, steps: seq<Step<E, D>>, n: nat)
    requires n <= |steps|
  {
    Coherent(After(w, steps, n)) && (n > 0 ==> CoherentUpTo(w, steps, n - 1))
  }

  ghost predicate GuardedUpTo<E, D>(w: World<E, D>, steps: seq<Step<E, D>>, n: nat)
    requires n <= |steps|
  {
    n > 0 ==> Guard(After(w, steps, n - 1), steps[n - 1]) && GuardedUpTo(w, steps, n - 1)
  }

  /** Over any run on any number of engines and devices, the registry is coherent
      at every moment exactly when every call met its guard. */
  lemma {:induction false} RunCoherentIff<E, D>(w: World<E, D>, steps: seq<Step<E, D>>, n: nat)
    requires Coherent(w) && n <= |steps|
    ensures CoherentUpTo(w, steps, n) <==> GuardedUpTo(w, steps, n)
  {
    if n > 0 {
      RunCoherentIff(w, steps, n - 1);
      if CoherentUpTo(w, steps, n - 1) {
        StepCoherentIff(After(w, steps, n - 1), steps[n - 1]);
      }
    }
  }

  /** Of a run in two parts, the first goes as if alone, the second from where the first
      ended. */
  lemma AfterPrefix<E, D>(w: World<E, D>, steps: seq<Step<E, D>>, more: seq<Step<E, D>>, k: nat)
    requires k <= |steps|
    ensures After(w, steps + more, k) == After(w, steps, k)
    ensures GuardedUpTo(w, steps + more, k) == GuardedUpTo(w, steps, k)
  {
  }

  lemma AfterNone<E, D>(w: World<E, D>, steps: seq<Step<E, D>>)
    ensures After(w, steps, 0) == w && GuardedUpTo(w, steps, 0)
  {
  }

  lemma {:induction false} AfterBoth<E, D>(w: World<E, D>, a: seq<Step<E, D>>, b: seq<Step<E, D>>, k: nat)
    requires k <= |b|
    ensures After(w, a + b, |a| + k) == After(After(w, a, |a|), b, k)
  {
    hide Apply;
    if k == 0 {
      AfterPrefix(w, a, b, |a|);
    } else {
      AfterBoth(w, a, b, k - 1);
    }
  }

  lemma {:induction false} GuardedBoth<E, D>(w: World<E, D>, a: seq<Step<E, D>>, b: seq<Step<E, D>>, k: nat)
    requires k <= |b|
    ensures GuardedUpTo(w, a + b, |a| + k) <==> GuardedUpTo(w, a, |a|) && GuardedUpTo(After(w, a, |a|), b, k)
  {
    hide Apply, Guard;
    if k == 0 {
      AfterPrefix(w, a, b, |a|);
    } else {
      GuardedBoth(w, a, b, k - 1);
      AfterBoth(w, a, b, k - 1);
    }
  }

  /** What a shared descriptor does: it keeps leading to the device that had it, and the
      one that brings it in again is never found by it. */
  lemma SharedStaysWithFirst<E, D>(w: World<E, D>, d: D, e: E, h: int)
    requires Coherent(w) && d in w.devices && e in w.engines && MappedElsewhere(w, e, Some(h), d)
    ensures w.devices[d].engine == Some(e) ==>
              var w1 := NewHandle(w, d, Some(h));
              h in w1.engines[e].mapping && w1.engines[e].mapping[h] == w.engines[e].mapping[h]
    ensures w.devices[d].handle == Some(h) && d !in w.engines[e].list ==>
              var w1 := Register(w, e, d);
              h in w1.engines[e].mapping && w1.engines[e].mapping[h] == w.engines[e].mapping[h]
  {
    assert Agrees(e, w.engines[e], w.devices);
  }

  /** The empty registry, where every run starts, is coherent. */
  lemma EmptyCoherent<E, D>(w: World<E, D>)
    requires forall e :: e in w.engines ==> w.engines[e] == EngineState([], map[], [])
    requires forall d :: d in w.devices ==> w.devices[d].engine.None?
    ensures Coherent(w)
  {
  }

  // -------------------------------------------------------------- effects

  /** The poll entries that do not lead to d, in their order. */
  ghost function OthersPoll<D>(poll: seq<PollFd>, mapping: map<int, D>, d: D): seq<PollFd> {
    if poll == [] then []
    else if poll[0].fd in mapping && mapping[poll[0].fd] == d then OthersPoll(poll[1..], mapping, d)
    else [poll[0]] + OthersPoll(poll[1..], mapping, d)
  }

  lemma OthersPollAll<D>(p: seq<PollFd>, mapping: map<int, D>, d: D)
    requires forall i :: 0 <= i < |p| ==> p[i].fd in mapping ==> mapping[p[i].fd] != d
    ensures OthersPoll(p, mapping, d) == p
  {
  }

  /** Everything engine es knows that is not about d. */
  ghost function OthersOnly<D>(es: EngineState<D>, d: D): EngineState<D> {
    EngineState(OthersPoll(es.poll, es.mapping, d), OthersMapping(es.mapping, d), Without(es.list, d))
  }

  ghost function AllOthers<E, D>(engines: map<E, EngineState<D>>, d: D): map<E, EngineState<D>> {
    map o | o in engines :: OthersOnly(engines[o], d)
  }

  lemma OthersOnlyAbsent<E, D>(e: E, es: EngineState<D>, devices: map<D, DeviceState<E>>, d: D)
    requires Agrees(e, es, devices) && d !in es.list
    ensures OthersOnly(es, d) == es
  {
    forall h | h in es.mapping ensures es.mapping[h] != d {}
    OthersPollAll(es.poll, es.mapping, d);
    WithoutAbsent(es.list, d);
  }

  lemma {:induction false} OthersPollAllButOne<D>(poll: seq<PollFd>, mapping: map<int, D>, d: D, i: nat)
    requires i < |poll| && poll[i].fd in mapping && mapping[poll[i].fd] == d
    requires forall k :: 0 <= k < |poll| && k != i ==> poll[k].fd in mapping && mapping[poll[k].fd] != d
    ensures OthersPoll(poll, mapping, d) == RemoveAt(poll, i)
  {
    if i == 0 {
      OthersPollAll(poll[1..], mapping, d);
    } else {
      OthersPollAllButOne(poll[1..], mapping, d, i - 1);
      assert RemoveAt(poll, i) == [poll[0]] + RemoveAt(poll[1..], i - 1);
    }
  }

  lemma DropDeviceIsFilter<E, D>(e: E, es: EngineState<D>, devices: map<D, DeviceState<E>>, d: D)
    requires Agrees(e, es, devices) && d in es.list
    ensures DropDevice(es, devices[d].handle, d) == OthersOnly(es, d)
  {
    var h := devices[d].handle;
    EraseIsWithout(es.list, d);
    OwnEntries(e, es, devices, d);
    if h.Some? {
      var i := FindFd(es.poll, h.value);
      assert HasFd(es.poll, h.value);
      forall k | 0 <= k < |es.poll| && k != i
        ensures es.poll[k].fd in es.mapping && es.mapping[es.poll[k].fd] != d
      {
      }
      OthersPollAllButOne(es.poll, es.mapping, d, i);
    } else {
      OthersPollAll(es.poll, es.mapping, d);
    }
  }

  /** Deregistering, on whichever engine it is called, removes d from every
      engine's list, mapping and poll vector and unloads it; every other entry
      keeps its place, its interest and its owner, and no other device changes. */
  lemma DeregisterEffect<E, D>(w: World<E, D>, e: E, d: D)
    requires Coherent(w) && d in w.devices && e in w.engines
    requires !MappedElsewhere(w, e, w.devices[d].handle, d)
    ensures Deregister(w, e, d) ==
            World(AllOthers(w.engines, d),
                  w.devices[d := w.devices[d].(engine := None)])
  {
    DeregisterCoherentIff(w, e, d);
    DeloadEffect(w, d);
  }

  lemma DeloadEffect<E, D>(w: World<E, D>, d: D)
    requires Coherent(w) && d in w.devices
    ensures Deload(w, d) ==
            World(AllOthers(w.engines, d),
                  w.devices[d := w.devices[d].(engine := None)])
  {
    DeloadKeeps(w, d);
    var w1 := Deload(w, d);
    forall o | o in w.engines ensures w1.engines[o] == OthersOnly(w.engines[o], d) {
      if w.devices[d].engine == Some(o) {
        DropDeviceIsFilter(o, w.engines[o], w.devices, d);
      } else {
        OthersOnlyAbsent(o, w.engines[o], w.devices, d);
      }
    }
  }

  /** Engine es with d at the end of its list and, if it has a handle, at the end of
      the poll vector for reading. */
  ghost function Joined<D>(es: EngineState<D>, h: Option<int>, d: D): EngineState<D> {
    EngineState(
      es.poll + (if h.Some? then [PollFd(h.value, PollIn)] else []),
      if h.Some? then es.mapping[h.value := d] else es.mapping,
      es.list + [d])
  }

  /** d in engine e only, everything about other devices as it was. */
  ghost function Migrated<E, D>(w: World<E, D>, e: E, d: D): World<E, D>
    requires e in w.engines && d in w.devices
  {
    World(AllOthers(w.engines, d)[e := Joined(w.engines[e], w.devices[d].handle, d)],
          w.devices[d := w.devices[d].(engine := Some(e))])
  }

  lemma HandleIsFree<E, D>(w: World<E, D>, e: E, d: D)
    requires Coherent(w) && d in w.devices && e in w.engines && MayRegister(w, e, d)
    requires d !in w.engines[e].list && w.devices[d].handle.Some?
    ensures w.devices[d].handle.value !in w.engines[e].mapping
  {
    var es := w.engines[e];
    assert Agrees(e, es, w.devices);
    forall k | k in es.mapping ensures es.mapping[k] in es.list {}
  }

  lemma AddHandleIsJoined<D>(es: EngineState<D>, h: Option<int>, d: D)
    requires h.Some? ==> h.value !in es.mapping
    ensures AddHandle(es.(list := es.list + [d]), None, h, d) == Joined(es, h, d)
  {
  }

  /** registerDevice on a device it does not hold, seen from the deloaded world. */
  lemma RegisterShape<E, D>(w: World<E, D>, e: E, d: D)
    requires Known(w, d) && e in w.engines && d !in w.engines[e].list
    requires Deload(w, d) == World(AllOthers(w.engines, d), w.devices[d := w.devices[d].(engine := None)])
    requires OthersOnly(w.engines[e], d) == w.engines[e]
    requires w.devices[d].handle.Some? ==> w.devices[d].handle.value !in w.engines[e].mapping
    ensures Register(w, e, d) == Migrated(w, e, d)
  {
    AddHandleIsJoined(w.engines[e], w.devices[d].handle, d);
    var ds := w.devices[d].(engine := Some(e));
    assert Deload(w, d).devices[d := ds] == w.devices[d := ds];
  }

  /** Registering migrates: d leaves whatever engine held it and joins e.  Nothing
      else moves. */
  lemma RegisterEffect<E, D>(w: World<E, D>, e: E, d: D)
    requires Coherent(w) && d in w.devices && e in w.engines && MayRegister(w, e, d)
    requires d !in w.engines[e].list
    ensures Register(w, e, d) == Migrated(w, e, d)
  {
    DeloadEffect(w, d);
    OthersOnlyAbsent(e, w.engines[e], w.devices, d);
    if w.devices[d].handle.Some? {
      HandleIsFree(w, e, d);
    }
    RegisterShape(w, e, d);
  }

  lemma JoinedThenOthers<E, D>(e: E, es: EngineState<D>, devices: map<D, DeviceState<E>>, h: Option<int>, d: D)
    requires Agrees(e, es, devices) && d !in es.list
    requires h.Some? ==> h.value !in es.mapping
    ensures OthersOnly(Joined(es, h, d), d) == es
  {
    var es1 := Joined(es, h, d);
    WithoutAppend(es.list, [d], d);
    WithoutAbsent(es.list, d);
    forall k | k in es.mapping ensures es.mapping[k] != d {}
    assert OthersMapping(es1.mapping, d) == es.mapping;
    if h.Some? {
      OthersPollAllButOne(es1.poll, es1.mapping, d, |es.poll|);
      assert RemoveAt(es1.poll, |es.poll|) == es.poll;
    } else {
      assert es1.poll == es.poll;
      OthersPollAll(es.poll, es1.mapping, d);
    }
  }

  /** Deregistering undoes registering a device that was in no engine. */
  lemma RegisterRoundTrip<E, D>(w: World<E, D>, e: E, d: D)
    requires Coherent(w) && d in w.devices && e in w.engines && MayRegister(w, e, d)
    requires w.devices[d].engine.None?
    ensures Deregister(Register(w, e, d), e, d) == w
  {
    RegisterEffect(w, e, d);
    RegisterCoherentIff(w, e, d);
    DeregisterEffect(Register(w, e, d), e, d);
    forall o | o in w.engines
      ensures OthersOnly(w.engines[o], d) == w.engines[o]
      ensures o == e ==> OthersOnly(Joined(w.engines[e], w.devices[d].handle, d), d) == w.engines[e]
    {
      OthersOnlyAbsent(o, w.engines[o], w.devices, d);
      if o == e {
        if w.devices[d].handle.Some? {
          HandleIsFree(w, e, d);
        }
        JoinedThenOthers(e, w.engines[e], w.devices, w.devices[d].handle, d);
      }
    }
    MigratedAndBack(w, e, d);
  }

  lemma MigratedAndBack<E, D>(w: World<E, D>, e: E, d: D)
    requires e in w.engines && d in w.devices && w.devices[d].engine.None?
    requires forall o :: o in w.engines ==> OthersOnly(w.engines[o], d) == w.engines[o]
    requires OthersOnly(Joined(w.engines[e], w.devices[d].handle, d), d) == w.engines[e]
    ensures var w1 := Migrated(w, e, d);
            World(AllOthers(w1.engines, d), w1.devices[d := w1.devices[d].(engine := None)]) == w
  {
  }

  // ---------------------------------------------------- one device's entry

  /** The interest of d's poll entry, or None when it has none. */
  ghost function Entry<E, D>(w: World<E, D>, d: D): (r: Option<Interest>)
    requires Known(w, d)
  {
    var ds := w.devices[d];
    if ds.engine.None? then None
    else
      var poll := w.engines[ds.engine.value].poll;
      var pos := FindHandle(poll, ds.handle);
      if pos < |poll| then Some(poll[pos].events) else None
  }

  /** A loaded device has an entry exactly when it has a handle. */
  lemma EntryIff<E, D>(w: World<E, D>, d: D)
    requires Coherent(w) && d in w.devices
    ensures Entry(w, d).Some? <==> w.devices[d].engine.Some? && w.devices[d].handle.Some?
  {
  }

  ghost predicate HasEntry(poll: seq<PollFd>, h: int, i: Interest) {
    exists k :: 0 <= k < |poll| && poll[k] == PollFd(h, i)
  }

  /** Descriptors are distinct, so any matching poll entry is the one found. */
  lemma EntryAt<E, D>(w: World<E, D>, d: D, i: Interest)
    requires Coherent(w) && d in w.devices
    requires w.devices[d].engine.Some? && w.devices[d].handle.Some?
    requires HasEntry(w.engines[w.devices[d].engine.value].poll, w.devices[d].handle.value, i)
    ensures Entry(w, d) == Some(i)
  {
  }

  /** Nothing that concerns devices other than d differs between w and w1. */
  ghost predicate OthersSame<E, D>(w: World<E, D>, w1: World<E, D>, d: D) {
    && w.engines.Keys == w1.engines.Keys
    && w.devices.Keys == w1.devices.Keys
    && forall o :: o in w.devices && o != d && Known(w, o) ==>
         w.devices[o] == w1.devices[o] && Entry(w, o) == Entry(w1, o)
  }

  /** To see that other devices keep their entries it is enough to find each
      entry of theirs again somewhere in the same engine. */
  lemma OthersSameWhen<E, D>(w: World<E, D>, w1: World<E, D>, d: D, ds: DeviceState<E>)
    requires Coherent(w) && Coherent(w1) && d in w.devices
    requires w1.devices == w.devices[d := ds] && w1.engines.Keys == w.engines.Keys
    requires forall e, k :: e in w.engines && 0 <= k < |w.engines[e].poll|
               && w.engines[e].mapping[w.engines[e].poll[k].fd] != d
               ==> w.engines[e].poll[k] in w1.engines[e].poll
    ensures OthersSame(w, w1, d)
  {
    forall o | o in w.devices && o != d
      ensures Entry(w, o) == Entry(w1, o)
    {
      EntryIff(w, o);
      EntryIff(w1, o);
      if Entry(w, o).Some? {
        var e := w.devices[o].engine.value;
        var poll := w.engines[e].poll;
        var pos := FindHandle(poll, w.devices[o].handle);
        assert poll[pos] in w1.engines[e].poll;
        assert HasEntry(w1.engines[e].poll, w.devices[o].handle.value, poll[pos].events);
        EntryAt(w1, o, poll[pos].events);
      }
    }
  }

  lemma SetInterestKeeps<E, D>(e: E, es: EngineState<D>, devices: map<D, DeviceState<E>>, d: D, i: Interest, k: nat)
    requires Agrees(e, es, devices) && d in es.list
    requires k < |es.poll| && es.mapping[es.poll[k].fd] != d
    ensures es.poll[k] in SetInterest(es, devices[d].handle, i).poll
  {
    assert SetInterest(es, devices[d].handle, i).poll[k] == es.poll[k];
  }

  lemma RequestEntry<E, D>(w: World<E, D>, d: D, i: Interest)
    requires Coherent(w) && d in w.devices
    ensures Coherent(Request(w, d, i)) && OthersSame(w, Request(w, d, i), d)
    ensures Request(w, d, i).devices == w.devices
    ensures Entry(Request(w, d, i), d) == if Entry(w, d).Some? then Some(i) else None
  {
    RequestKeeps(w, d, i);
    var w1 := Request(w, d, i);
    var ds := w.devices[d];
    assert w1.devices == w.devices[d := ds];
    forall e, k | e in w.engines && 0 <= k < |w.engines[e].poll|
      && w.engines[e].mapping[w.engines[e].poll[k].fd] != d
      ensures w.engines[e].poll[k] in w1.engines[e].poll
    {
      if ds.engine == Some(e) {
        hide SetInterest;
        SetInterestKeeps(e, w.engines[e], w.devices, d, i, k);
      }
    }
    OthersSameWhen(w, w1, d, ds);
    EntryIff(w, d);
    EntryIff(w1, d);
    if Entry(w, d).Some? {
      var e := ds.engine.value;
      var pos := FindHandle(w.engines[e].poll, ds.handle);
      assert w1.engines[e].poll[pos] == PollFd(ds.handle.value, i);
      EntryAt(w1, d, i);
    }
  }

  lemma AddHandleKeeps<E, D>(e: E, es: EngineState<D>, devices: map<D, DeviceState<E>>, d: D, h: int, k: nat)
    requires Agrees(e, es, devices) && d in es.list
    requires k < |es.poll| && es.mapping[es.poll[k].fd] != d
    ensures es.poll[k] in AddHandle(es, devices[d].handle, Some(h), d).poll
  {
    assert AddHandle(es, devices[d].handle, Some(h), d).poll[k] == es.poll[k];
  }

  /** A replaced handle takes over the old one's entry and interest; a first handle
      gets a fresh entry, for reading. */
  lemma NewHandleEntry<E, D>(w: World<E, D>, d: D, h: int)
    requires Coherent(w) && d in w.devices && HandleFits(w, d, Some(h))
    ensures var w1 := NewHandle(w, d, Some(h));
            && Coherent(w1) && OthersSame(w, w1, d)
            && w1.devices[d] == w.devices[d].(handle := Some(h), taken := w.devices[d].taken + multiset{h})
            && Entry(w1, d) == if w.devices[d].engine.None? then None
                               else if Entry(w, d).Some? then Entry(w, d) else Some(PollIn)
  {
    NewHandleCoherentIff(w, d, Some(h));
    var w1 := NewHandle(w, d, Some(h));
    var ds := w.devices[d];
    forall e, k | e in w.engines && 0 <= k < |w.engines[e].poll|
      && w.engines[e].mapping[w.engines[e].poll[k].fd] != d
      ensures w.engines[e].poll[k] in w1.engines[e].poll
    {
      if ds.engine == Some(e) {
        AddHandleKeeps(e, w.engines[e], w.devices, d, h, k);
      }
    }
    OthersSameWhen(w, w1, d, w1.devices[d]);
    if ds.engine.Some? {
      NewHandleOwnEntry(w, d, h, ds.engine.value);
    }
  }

  lemma NewHandleOwnEntry<E, D>(w: World<E, D>, d: D, h: int, e: E)
    requires Coherent(w) && d in w.devices && w.devices[d].engine == Some(e)
    requires Coherent(NewHandle(w, d, Some(h)))
    ensures Entry(NewHandle(w, d, Some(h)), d) == if Entry(w, d).Some? then Entry(w, d) else Some(PollIn)
  {
    var w1 := NewHandle(w, d, Some(h));
    EntryIff(w, d);
    var pos := FindHandle(w.engines[e].poll, w.devices[d].handle);
    assert w1.engines[e].poll[pos].fd == h;
    EntryAt(w1, d, w1.engines[e].poll[pos].events);
  }

  lemma DropHandleKeeps<E, D>(e: E, es: EngineState<D>, devices: map<D, DeviceState<E>>, d: D, k: nat)
    requires Agrees(e, es, devices) && d in es.list
    requires k < |es.poll| && es.mapping[es.poll[k].fd] != d
    ensures es.poll[k] in DropHandle(es, devices[d].handle).poll
  {
    var pos := FindHandle(es.poll, devices[d].handle);
    if pos < |es.poll| {
      assert es.poll[pos].fd in es.mapping && es.mapping[es.poll[pos].fd] == d;
      assert RemoveAt(es.poll, pos)[if k < pos then k else k - 1] == es.poll[k];
    }
  }

  lemma DestroyHandleEntry<E, D>(w: World<E, D>, d: D)
    requires Coherent(w) && d in w.devices
    ensures var w1, ds := DestroyHandle(w, d), w.devices[d];
            && Coherent(w1) && OthersSame(w, w1, d) && Entry(w1, d) == None
            && w1.devices[d] == ds.(handle := if ds.engine.Some? then None else ds.handle,
                                    closed := ds.closed + if ds.handle.Some? then multiset{ds.handle.value}
                                                          else multiset{})
  {
    DestroyHandleKeeps(w, d);
    var w1 := DestroyHandle(w, d);
    forall e, k | e in w.engines && 0 <= k < |w.engines[e].poll|
      && w.engines[e].mapping[w.engines[e].poll[k].fd] != d
      ensures w.engines[e].poll[k] in w1.engines[e].poll
    {
      if w.devices[d].engine == Some(e) {
        hide DropHandle;
        DropHandleKeeps(e, w.engines[e], w.devices, d, k);
      }
    }
    OthersSameWhen(w, w1, d, w1.devices[d]);
    EntryIff(w1, d);
  }

  lemma OthersPollKeeps<D>(poll: seq<PollFd>, mapping: map<int, D>, d: D, k: nat)
    requires k < |poll| && poll[k].fd in mapping && mapping[poll[k].fd] != d
    ensures poll[k] in OthersPoll(poll, mapping, d)
  {
    if k > 0 {
      OthersPollKeeps(poll[1..], mapping, d, k - 1);
    }
  }

  lemma DeloadEntry<E, D>(w: World<E, D>, d: D)
    requires Coherent(w) && d in w.devices
    ensures var w1 := Deload(w, d);
            Coherent(w1) && OthersSame(w, w1, d) && Entry(w1, d) == None
  {
    DeloadKeeps(w, d);
    DeloadEffect(w, d);
    var w1 := Deload(w, d);
    forall e, k | e in w.engines && 0 <= k < |w.engines[e].poll|
      && w.engines[e].mapping[w.engines[e].poll[k].fd] != d
      ensures w.engines[e].poll[k] in w1.engines[e].poll
    {
      OthersPollKeeps(w.engines[e].poll, w.engines[e].mapping, d, k);
    }
    OthersSameWhen(w, w1, d, w1.devices[d]);
  }

  lemma MigratedKeeps<E, D>(w: World<E, D>, e: E, d: D, o: E, k: nat)
    requires Coherent(w) && d in w.devices && e in w.engines && d !in w.engines[e].list && o in w.engines
    requires k < |w.engines[o].poll| && w.engines[o].mapping[w.engines[o].poll[k].fd] != d
    ensures w.engines[o].poll[k] in Migrated(w, e, d).engines[o].poll
  {
    assert Agrees(o, w.engines[o], w.devices);
    if o == e {
      assert Migrated(w, e, d).engines[e].poll[k] == w.engines[e].poll[k];
    } else {
      OthersPollKeeps(w.engines[o].poll, w.engines[o].mapping, d, k);
    }
  }

  lemma MigratedOwnEntry<E, D>(w: World<E, D>, e: E, d: D)
    requires d in w.devices && e in w.engines && Coherent(Migrated(w, e, d))
    ensures Entry(Migrated(w, e, d), d) == if w.devices[d].handle.Some? then Some(PollIn) else None
  {
    var w1 := Migrated(w, e, d);
    EntryIff(w1, d);
    if w.devices[d].handle.Some? {
      assert w1.engines[e].poll[|w.engines[e].poll|] == PollFd(w.devices[d].handle.value, PollIn);
      EntryAt(w1, d, PollIn);
    }
  }

  lemma RegisterEntry<E, D>(w: World<E, D>, e: E, d: D)
    requires Coherent(w) && d in w.devices && e in w.engines && MayRegister(w, e, d)
    ensures var w1 := Register(w, e, d);
            && Coherent(w1) && OthersSame(w, w1, d)
            && Entry(w1, d) == if d in w.engines[e].list then Entry(w, d)
                               else if w.devices[d].handle.Some? then Some(PollIn) else None
  {
    RegisterCoherentIff(w, e, d);
    if d !in w.engines[e].list {
      hide Register, Coherent, Entry, OthersSame, OthersPoll, OthersMapping;
      RegisterEffect(w, e, d);
      var w1 := Migrated(w, e, d);
      forall o, k | o in w.engines && 0 <= k < |w.engines[o].poll|
        && w.engines[o].mapping[w.engines[o].poll[k].fd] != d
        ensures w.engines[o].poll[k] in w1.engines[o].poll
      {
        MigratedKeeps(w, e, d, o, k);
      }
      OthersSameWhen(w, w1, d, w1.devices[d]);
      MigratedOwnEntry(w, e, d);
    }
  }
}
