/** The registry as a value: what every engine's three structures and every
    device's back pointer and handle hold, and what each API step does to them.
    E and D are the identities of engines and devices. */
module RegistryModel {
  import opened Basics

  datatype Interest = PollIn | PollOut

  /** A pollfd without its revents, which poll() rewrites on every call. */
  datatype PollFd = PollFd(fd: int, events: Interest)

  /** mPollDevices, mDeviceMapping and mDeviceList. */
  datatype EngineState<D> = EngineState(poll: seq<PollFd>, mapping: map<int, D>, list: seq<D>)

  /** mDeviceHandle and mLoadedEngine, with two ledgers: the descriptors the
      device was given and the descriptors it closed. */
  datatype DeviceState<E> = DeviceState(
    handle: Option<int>, engine: Option<E>, taken: multiset<int>, closed: multiset<int>)

  datatype World<E, D> = World(engines: map<E, EngineState<D>>, devices: map<D, DeviceState<E>>)

  // ---------------------------------------------------------------- engine

  /** Engine::findHandleInList: the first entry with this descriptor, or end(). */
  ghost function FindFd(poll: seq<PollFd>, fd: int): (i: nat)
    ensures i <= |poll|
    ensures i < |poll| ==> poll[i].fd == fd
    ensures forall j :: 0 <= j < i ==> poll[j].fd != fd
  {
    if |poll| == 0 || poll[0].fd == fd then 0 else 1 + FindFd(poll[1..], fd)
  }

  ghost function FindHandle(poll: seq<PollFd>, handle: Option<int>): (i: nat)
    ensures i <= |poll|
  {
    if handle.None? then |poll| else FindFd(poll, handle.value)
  }

  /** std::map::insert keeps the entry that is already there. */
  function Insert<D>(m: map<int, D>, h: int, d: D): map<int, D> {
    if h in m then m else m[h := d]
  }

  /** Engine::registerNewHandle. */
  ghost function AddHandle<D>(es: EngineState<D>, oldHandle: Option<int>, newHandle: Option<int>, d: D)
    : EngineState<D>
  {
    if newHandle.None? then es
    else
      var pos := FindHandle(es.poll, oldHandle);
      if pos == |es.poll| then
        es.(poll := es.poll + [PollFd(newHandle.value, PollIn)],
            mapping := Insert(es.mapping, newHandle.value, d))
      else
        es.(poll := es.poll[pos := es.poll[pos].(fd := newHandle.value)],
            mapping := Insert(es.mapping - {oldHandle.value}, newHandle.value, d))
  }

  /** Engine::deRegisterHandle. */
  ghost function DropHandle<D>(es: EngineState<D>, handle: Option<int>): EngineState<D> {
    var pos := FindHandle(es.poll, handle);
    if pos == |es.poll| then es
    else es.(poll := RemoveAt(es.poll, pos), mapping := es.mapping - {handle.value})
  }

  /** The tail of Engine::deRegisterDevice. */
  ghost function DropDevice<D>(es: EngineState<D>, handle: Option<int>, d: D): EngineState<D> {
    var es1 := DropHandle(es, handle);
    es1.(list := Erase(es1.list, d))
  }

  /** Engine::requestRead and Engine::requestWrite. */
  ghost function SetInterest<D>(es: EngineState<D>, handle: Option<int>, i: Interest): EngineState<D> {
    var pos := FindHandle(es.poll, handle);
    if pos == |es.poll| then es
    else es.(poll := es.poll[pos := es.poll[pos].(events := i)])
  }

  // ----------------------------------------------------------------- world

  /** d exists and its back pointer, if set, points at an existing engine. */
  ghost predicate Known<E, D>(w: World<E, D>, d: D) {
    && d in w.devices
    && (w.devices[d].engine.Some? ==> w.devices[d].engine.value in w.engines)
  }

  ghost function SetEngine<E, D>(w: World<E, D>, e: E, es: EngineState<D>): World<E, D> {
    w.(engines := w.engines[e := es])
  }

  ghost function SetDevice<E, D>(w: World<E, D>, d: D, ds: DeviceState<E>): World<E, D> {
    w.(devices := w.devices[d := ds])
  }

  /** The tail of deRegisterDevice, on engine e. */
  ghost function Forgotten<E, D>(w: World<E, D>, e: E, d: D): World<E, D>
    requires d in w.devices && e in w.engines
  {
    SetEngine(w, e, DropDevice(w.engines[e], w.devices[d].handle, d))
  }

  /** The tail of registerDevice, on engine e. */
  ghost function Adopted<E, D>(w: World<E, D>, e: E, d: D): World<E, D>
    requires d in w.devices && e in w.engines
  {
    var ds, es := w.devices[d], w.engines[e];
    SetEngine(SetDevice(w, d, ds.(engine := Some(e))), e,
              AddHandle(es.(list := es.list + [d]), None, ds.handle, d))
  }

  /** Device::deloadEngine, with the deRegisterDevice call it makes. */
  ghost function Deload<E, D>(w: World<E, D>, d: D): World<E, D>
    requires Known(w, d)
  {
    var ds := w.devices[d];
    if ds.engine.None? then w
    else
      Forgotten(SetDevice(w, d, ds.(engine := None)), ds.engine.value, d)
  }

  /** Engine::deRegisterDevice. */
  ghost function Deregister<E, D>(w: World<E, D>, e: E, d: D): World<E, D>
    requires Known(w, d) && e in w.engines
  {
    Forgotten(Deload(w, d), e, d)
  }

  /** Engine::registerDevice. */
  ghost function Register<E, D>(w: World<E, D>, e: E, d: D): World<E, D>
    requires Known(w, d) && e in w.engines
  {
    if d in w.engines[e].list then w else Adopted(Deload(w, d), e, d)
  }

  /** Device::registerNewHandle. */
  ghost function NewHandle<E, D>(w: World<E, D>, d: D, h: Option<int>): World<E, D>
    requires Known(w, d)
  {
    var ds := w.devices[d];
    var w1 := SetDevice(w, d, ds.(handle := h, taken := ds.taken + Current(h)));
    if ds.engine.None? then w1
    else SetEngine(w1, ds.engine.value, AddHandle(w.engines[ds.engine.value], ds.handle, h, d))
  }

  /** The descriptor a handle stands for, as a multiset of none or one. */
  ghost function Current(h: Option<int>): multiset<int> {
    if h.None? then multiset{} else multiset{h.value}
  }

  /** Device::destroyHandle: closeHandle always, the rest only when loaded. */
  ghost function DestroyHandle<E, D>(w: World<E, D>, d: D): World<E, D>
    requires Known(w, d)
  {
    var ds := w.devices[d];
    var ds1 := ds.(closed := ds.closed + Current(ds.handle));
    if ds.engine.None? then SetDevice(w, d, ds1)
    else
      SetEngine(SetDevice(w, d, ds1.(handle := None)), ds.engine.value,
                DropHandle(w.engines[ds.engine.value], ds.handle))
  }

  /** Device::requestRead and Device::requestWrite. */
  ghost function Request<E, D>(w: World<E, D>, d: D, i: Interest): World<E, D>
    requires Known(w, d)
  {
    var ds := w.devices[d];
    if ds.engine.None? then w
    else SetEngine(w, ds.engine.value, SetInterest(w.engines[ds.engine.value], ds.handle, i))
  }

  /** ~Device. */
  ghost function Destruct<E, D>(w: World<E, D>, d: D): World<E, D>
    requires Known(w, d)
  {
    var w1 := Deload(w, d);
    w1.(devices := w1.devices - {d})
  }

  // ------------------------------------------------------------- coherence

  ghost predicate HasFd(poll: seq<PollFd>, h: int) {
    exists i :: 0 <= i < |poll| && poll[i].fd == h
  }

  ghost predicate DistinctFds(poll: seq<PollFd>) {
    forall i, j :: 0 <= i < j < |poll| ==> poll[i].fd != poll[j].fd
  }

  /** One engine's three structures agree with each other and with the devices. */
  ghost predicate Agrees<E, D>(e: E, es: EngineState<D>, devices: map<D, DeviceState<E>>) {
    && DistinctFds(es.poll)
    && Distinct(es.list)
    && (forall d :: d in es.list ==> d in devices && devices[d].engine == Some(e))
    && (forall d :: d in devices && devices[d].engine == Some(e) ==> d in es.list)
    && (forall i :: 0 <= i < |es.poll| ==> es.poll[i].fd in es.mapping)
    && (forall h :: h in es.mapping ==>
          HasFd(es.poll, h) && es.mapping[h] in es.list && devices[es.mapping[h]].handle == Some(h))
    && (forall d :: d in es.list && devices[d].handle.Some? ==>
          devices[d].handle.value in es.mapping && es.mapping[devices[d].handle.value] == d)
  }

  ghost predicate Coherent<E, D>(w: World<E, D>) {
    && (forall e :: e in w.engines ==> Agrees(e, w.engines[e], w.devices))
    && (forall d :: d in w.devices ==> Known(w, d))
  }

  /** Descriptor h is mapped in engine e to some device other than d. */
  ghost predicate MappedElsewhere<E, D>(w: World<E, D>, e: E, h: Option<int>, d: D)
    requires e in w.engines
  {
    h.Some? && h.value in w.engines[e].mapping && w.engines[e].mapping[h.value] != d
  }

  // ----------------------------------------------- engine-level preservation

  /** An engine that does not hold d is indifferent to d's fields. */
  lemma AgreesOther<E, D>(e: E, es: EngineState<D>, devices: map<D, DeviceState<E>>, d: D, ds: DeviceState<E>)
    requires Agrees(e, es, devices) && d !in es.list && ds.engine != Some(e)
    ensures Agrees(e, es, devices[d := ds])
  {
  }

  /** Distinct descriptors stay distinct, and only the removed one is gone. */
  lemma RemoveEntry(poll: seq<PollFd>, pos: nat)
    requires DistinctFds(poll) && pos < |poll|
    ensures DistinctFds(RemoveAt(poll, pos))
    ensures forall k :: HasFd(RemoveAt(poll, pos), k) <==> HasFd(poll, k) && k != poll[pos].fd
  {
    var poll1 := RemoveAt(poll, pos);
    forall k | HasFd(poll, k) && k != poll[pos].fd ensures HasFd(poll1, k) {
      var i :| 0 <= i < |poll| && poll[i].fd == k;
      assert poll1[if i < pos then i else i - 1].fd == k;
    }
    forall k | HasFd(poll1, k) ensures HasFd(poll, k) && k != poll[pos].fd {
      var i :| 0 <= i < |poll1| && poll1[i].fd == k;
      assert poll[if i < pos then i else i + 1].fd == k;
    }
  }

  lemma AgreesDropHandle<E, D>(e: E, es: EngineState<D>, devices: map<D, DeviceState<E>>, d: D, ds: DeviceState<E>)
    requires Agrees(e, es, devices) && d in es.list
    requires ds.engine == Some(e) && ds.handle.None?
    ensures Agrees(e, DropHandle(es, devices[d].handle), devices[d := ds])
  {
    var h := devices[d].handle;
    if h.Some? {
      var pos := FindFd(es.poll, h.value);
      assert HasFd(es.poll, h.value);
      RemoveEntry(es.poll, pos);
      var es1 := DropHandle(es, h);
      assert es1.mapping == es.mapping - {h.value} && es1.poll == RemoveAt(es.poll, pos);
      forall i | 0 <= i < |es1.poll| ensures es1.poll[i].fd in es1.mapping {
        assert HasFd(es1.poll, es1.poll[i].fd);
      }
    }
  }

  lemma AgreesEraseMember<E, D>(e: E, es: EngineState<D>, devices: map<D, DeviceState<E>>, d: D, ds: DeviceState<E>)
    requires Agrees(e, es, devices) && d in es.list && devices[d].handle.None? && ds.engine != Some(e)
    ensures Agrees(e, es.(list := Erase(es.list, d)), devices[d := ds])
  {
  }

  lemma AgreesDropDevice<E, D>(e: E, es: EngineState<D>, devices: map<D, DeviceState<E>>, d: D, ds: DeviceState<E>)
    requires Agrees(e, es, devices) && d in es.list && ds.engine != Some(e)
    ensures Agrees(e, DropDevice(es, devices[d].handle, d), devices[d := ds])
    ensures DropDevice(es, devices[d].handle, d).mapping == OthersMapping(es.mapping, d)
  {
    var mid := devices[d].(handle := None);
    AgreesDropHandle(e, es, devices, d, mid);
    AgreesEraseMember(e, DropHandle(es, devices[d].handle), devices[d := mid], d, ds);
    assert devices[d := mid][d := ds] == devices[d := ds];
    OwnEntries(e, es, devices, d);
    assert devices[d].handle.Some? ==> HasFd(es.poll, devices[d].handle.value);
  }

  /** The only entry that leads to a device is the one of its handle. */
  lemma OwnEntries<E, D>(e: E, es: EngineState<D>, devices: map<D, DeviceState<E>>, d: D)
    requires Agrees(e, es, devices) && d in devices
    ensures OthersMapping(es.mapping, d) ==
            if d in es.list && devices[d].handle.Some? then es.mapping - {devices[d].handle.value} else es.mapping
  {
    forall h | h in es.mapping && es.mapping[h] == d
      ensures d in es.list && devices[d].handle == Some(h)
    {
    }
  }

  lemma AppendEntry(poll: seq<PollFd>, p: PollFd)
    requires DistinctFds(poll) && !HasFd(poll, p.fd)
    ensures DistinctFds(poll + [p])
    ensures forall k :: HasFd(poll + [p], k) <==> HasFd(poll, k) || k == p.fd
  {
    var poll1 := poll + [p];
    forall k | HasFd(poll, k) || k == p.fd ensures HasFd(poll1, k) {
      if k == p.fd {
        assert poll1[|poll|].fd == k;
      } else {
        var i :| 0 <= i < |poll| && poll[i].fd == k;
        assert poll1[i].fd == k;
      }
    }
  }

  lemma RenameEntry(poll: seq<PollFd>, pos: nat, h: int)
    requires DistinctFds(poll) && pos < |poll|
    requires HasFd(poll, h) ==> h == poll[pos].fd
    ensures var poll1 := poll[pos := poll[pos].(fd := h)];
            && DistinctFds(poll1)
            && forall k :: HasFd(poll1, k) <==> k == h || (HasFd(poll, k) && k != poll[pos].fd)
  {
    var poll1 := poll[pos := poll[pos].(fd := h)];
    assert poll1[pos].fd == h;
    forall i | 0 <= i < |poll| && i != pos ensures poll[i].fd != h {
      assert HasFd(poll, poll[i].fd);
    }
    forall k | HasFd(poll, k) && k != poll[pos].fd ensures HasFd(poll1, k) {
      var i :| 0 <= i < |poll| && poll[i].fd == k;
      assert poll1[i].fd == k;
    }
  }

  /** The poll vector and the mapping have the same descriptors. */
  lemma SameDescriptors<E, D>(e: E, es: EngineState<D>, devices: map<D, DeviceState<E>>, h: int)
    requires Agrees(e, es, devices)
    ensures HasFd(es.poll, h) <==> h in es.mapping
  {
  }

  lemma AgreesAddMember<E, D>(e: E, es: EngineState<D>, devices: map<D, DeviceState<E>>, d: D, ds: DeviceState<E>)
    requires Agrees(e, es, devices) && d !in es.list && ds.engine == Some(e)
    requires ds.handle.Some? ==> ds.handle.value !in es.mapping
    ensures Agrees(e, AddHandle(es.(list := es.list + [d]), None, ds.handle, d), devices[d := ds])
  {
    if ds.handle.Some? {
      SameDescriptors(e, es, devices, ds.handle.value);
      AppendEntry(es.poll, PollFd(ds.handle.value, PollIn));
    }
  }

  lemma AgreesNewHandle<E, D>(e: E, es: EngineState<D>, devices: map<D, DeviceState<E>>, d: D, ds: DeviceState<E>)
    requires Agrees(e, es, devices) && d in es.list && ds.engine == Some(e) && ds.handle.Some?
    requires ds.handle.value !in es.mapping || es.mapping[ds.handle.value] == d
    ensures Agrees(e, AddHandle(es, devices[d].handle, ds.handle, d), devices[d := ds])
  {
    var h := ds.handle.value;
    SameDescriptors(e, es, devices, h);
    if devices[d].handle.Some? {
      SameDescriptors(e, es, devices, devices[d].handle.value);
      RenameEntry(es.poll, FindFd(es.poll, devices[d].handle.value), h);
    } else {
      AppendEntry(es.poll, PollFd(h, PollIn));
    }
  }

  lemma AgreesSetInterest<E, D>(e: E, es: EngineState<D>, devices: map<D, DeviceState<E>>, h: Option<int>, i: Interest)
    requires Agrees(e, es, devices)
    ensures Agrees(e, SetInterest(es, h, i), devices)
  {
    var es1 := SetInterest(es, h, i);
    forall k | k in es1.mapping ensures HasFd(es1.poll, k) {
      var j :| 0 <= j < |es.poll| && es.poll[j].fd == k;
      assert es1.poll[j].fd == k;
    }
  }

  /** The mapping without the entries that lead to d. */
  ghost function OthersMapping<D>(mapping: map<int, D>, d: D): map<int, D> {
    map h | h in mapping && mapping[h] != d :: mapping[h]
  }

  // ------------------------------------------------ world-level preservation

  /** Deloading always keeps coherence, and leaves d in no engine at all. */
  lemma DeloadKeeps<E, D>(w: World<E, D>, d: D)
    requires Coherent(w) && d in w.devices
    ensures Coherent(Deload(w, d))
    ensures Deload(w, d).devices == w.devices[d := w.devices[d].(engine := None)]
    ensures Deload(w, d).engines.Keys == w.engines.Keys
    ensures forall e :: e in w.engines ==> d !in Deload(w, d).engines[e].list
    ensures forall e :: e in w.engines ==> Deload(w, d).engines[e].mapping == OthersMapping(w.engines[e].mapping, d)
  {
    var ds := w.devices[d];
    var w1 := Deload(w, d);
    forall e | e in w.engines ensures w1.engines[e].mapping == OthersMapping(w.engines[e].mapping, d) {
      OwnEntries(e, w.engines[e], w.devices, d);
      if ds.engine == Some(e) {
        AgreesDropDevice(e, w.engines[e], w.devices, d, ds.(engine := None));
      }
    }
    if ds.engine.None? {
      assert w1.devices == w.devices[d := ds.(engine := None)];
    } else {
      var e := ds.engine.value;
      forall o | o in w.engines ensures Agrees(o, w1.engines[o], w1.devices) {
        if o == e {
          AgreesDropDevice(e, w.engines[e], w.devices, d, ds.(engine := None));
        } else {
          AgreesOther(o, w.engines[o], w.devices, d, ds.(engine := None));
        }
      }
      AgreesDropDevice(e, w.engines[e], w.devices, d, ds.(engine := None));
    }
  }

  /** A second drop of a device that is already out finds nothing to drop,
      unless its handle is mapped there to another device. */
  lemma DropAbsent<E, D>(e: E, es: EngineState<D>, devices: map<D, DeviceState<E>>, h: Option<int>, d: D)
    requires Agrees(e, es, devices) && d !in es.list
    requires h.Some? ==> h.value !in es.mapping
    ensures DropDevice(es, h, d) == es
  {
  }

  /** Deregistering on any engine is deloading, exactly when the handle is not
      mapped there to somebody else; otherwise that device loses its entry. */
  lemma DeregisterCoherentIff<E, D>(w: World<E, D>, e: E, d: D)
    requires Coherent(w) && d in w.devices && e in w.engines
    ensures Coherent(Deregister(w, e, d)) <==> !MappedElsewhere(w, e, w.devices[d].handle, d)
    ensures !MappedElsewhere(w, e, w.devices[d].handle, d) ==> Deregister(w, e, d) == Deload(w, d)
  {
    DeloadKeeps(w, d);
    var w1 := Deload(w, d);
    var h := w.devices[d].handle;
    var es := w1.engines[e];
    if !MappedElsewhere(w, e, h, d) {
      DropAbsent(e, es, w1.devices, h, d);
      assert SetEngine(w1, e, es) == w1;
    } else {
      var o := es.mapping[h.value];
      assert HasFd(es.poll, h.value);
      var w2 := Deregister(w, e, d);
      assert w2.devices[o].engine == Some(e) && w2.devices[o].handle == h;
      assert h.value !in w2.engines[e].mapping;
    }
  }

  lemma RegisterCoherentIff<E, D>(w: World<E, D>, e: E, d: D)
    requires Coherent(w) && d in w.devices && e in w.engines
    ensures Coherent(Register(w, e, d)) <==> !MappedElsewhere(w, e, w.devices[d].handle, d) || d in w.engines[e].list
  {
    if d !in w.engines[e].list {
      DeloadKeeps(w, d);
      var w1 := Deload(w, d);
      var ds := w1.devices[d].(engine := Some(e));
      var w2 := Register(w, e, d);
      if !MappedElsewhere(w, e, ds.handle, d) {
        forall o | o in w2.engines ensures Agrees(o, w2.engines[o], w2.devices) {
          if o == e {
            AgreesAddMember(e, w1.engines[e], w1.devices, d, ds);
          } else {
            AgreesOther(o, w1.engines[o], w1.devices, d, ds);
          }
        }
      } else {
        var p := w1.engines[e].poll;
        assert HasFd(p, ds.handle.value);
        var i :| 0 <= i < |p| && p[i].fd == ds.handle.value;
        assert w2.engines[e].poll[i].fd == w2.engines[e].poll[|p|].fd;
      }
    }
  }

  /** When replacing a device's handle keeps the registry coherent: never with an
      empty handle over a live one, never with one mapped to another device. */
  ghost predicate HandleFits<E, D>(w: World<E, D>, d: D, h: Option<int>)
    requires Known(w, d)
  {
    var ds := w.devices[d];
    ds.engine.Some? ==>
      (if h.None? then ds.handle.None? else !MappedElsewhere(w, ds.engine.value, h, d))
  }

  /** An engine that still maps d's old handle does not agree with an empty one. */
  lemma EmptyHandleDisagrees<E, D>(e: E, es: EngineState<D>, devices: map<D, DeviceState<E>>, d: D, ds: DeviceState<E>)
    requires Agrees(e, es, devices) && d in es.list && devices[d].handle.Some? && ds.handle.None?
    ensures !Agrees(e, es, devices[d := ds])
  {
    var k := devices[d].handle.value;
    assert k in es.mapping && devices[d := ds][es.mapping[k]].handle == None;
  }

  lemma NewHandleKeeps<E, D>(w: World<E, D>, d: D, h: Option<int>)
    requires Coherent(w) && d in w.devices && HandleFits(w, d, h)
    ensures Coherent(NewHandle(w, d, h))
  {
    var w1 := NewHandle(w, d, h);
    forall o | o in w1.engines ensures Agrees(o, w1.engines[o], w1.devices) {
      if w.devices[d].engine == Some(o) && h.Some? {
        AgreesNewHandle(o, w.engines[o], w.devices, d, w1.devices[d]);
      }
    }
  }

  lemma NewHandleCoherentIff<E, D>(w: World<E, D>, d: D, h: Option<int>)
    requires Coherent(w) && d in w.devices
    ensures Coherent(NewHandle(w, d, h)) <==> HandleFits(w, d, h)
  {
    var ds := w.devices[d];
    var w1 := NewHandle(w, d, h);
    if HandleFits(w, d, h) {
      NewHandleKeeps(w, d, h);
    } else if h.Some? {
      var e := ds.engine.value;
      var p := w.engines[e].poll;
      var pos := FindHandle(p, ds.handle);
      var i :| 0 <= i < |p| && p[i].fd == h.value;
      assert w1.engines[e].poll[i].fd == w1.engines[e].poll[pos].fd;
      assert i != pos;
    } else {
      EmptyHandleDisagrees(ds.engine.value, w.engines[ds.engine.value], w.devices, d, w1.devices[d]);
    }
  }

  lemma DestroyHandleKeeps<E, D>(w: World<E, D>, d: D)
    requires Coherent(w) && d in w.devices
    ensures Coherent(DestroyHandle(w, d))
  {
    var ds := w.devices[d];
    var w1 := DestroyHandle(w, d);
    forall o | o in w1.engines ensures Agrees(o, w1.engines[o], w1.devices) {
      if ds.engine == Some(o) {
        AgreesDropHandle(o, w.engines[o], w.devices, d, w1.devices[d]);
      } else {
        AgreesOther(o, w.engines[o], w.devices, d, w1.devices[d]);
      }
    }
  }

  lemma RequestKeeps<E, D>(w: World<E, D>, d: D, i: Interest)
    requires Coherent(w) && d in w.devices
    ensures Coherent(Request(w, d, i))
  {
    var ds := w.devices[d];
    if ds.engine.Some? {
      AgreesSetInterest(ds.engine.value, w.engines[ds.engine.value], w.devices, ds.handle, i);
    }
  }

  lemma DestructKeeps<E, D>(w: World<E, D>, d: D)
    requires Coherent(w) && d in w.devices
    ensures Coherent(Destruct(w, d))
  {
    DeloadKeeps(w, d);
    var w1 := Deload(w, d);
    var w2 := Destruct(w, d);
    forall e | e in w2.engines ensures Agrees(e, w2.engines[e], w2.devices) {
      assert Agrees(e, w1.engines[e], w1.devices);
    }
  }
}
