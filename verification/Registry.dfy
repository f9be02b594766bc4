/** Engine and Device as the objects they are.  Every method is proved to do to the
    heap what the function of the same name in World does to its value. */
module Registry {
  import opened Basics
  import opened RegistryModel

  /** The engines and devices in play. */
  datatype Universe = Universe(engines: set<Engine>, devices: set<Device>) {
    /** Back pointers stay inside the universe. */
    ghost predicate Closed()
      reads devices
    {
      forall d :: d in devices && d.loadedEngine != null ==> d.loadedEngine in engines
    }

    ghost function View(): (w: World<Engine, Device>)
      reads engines, devices
      ensures w.engines.Keys == engines && w.devices.Keys == devices
    {
      World(map e | e in engines :: e.State(), map d | d in devices :: d.State())
    }
  }

  /** If engine e and device d are all that differs from world w, so it is in the view. */
  lemma ViewChange(u: Universe, w: World<Engine, Device>, e: Engine, d: Device)
    requires w.engines.Keys == u.engines && w.devices.Keys == u.devices
    requires e in u.engines && d in u.devices
    requires forall o :: o in u.engines && o != e ==> o.State() == w.engines[o]
    requires forall o :: o in u.devices && o != d ==> o.State() == w.devices[o]
    ensures u.View() == SetEngine(SetDevice(w, d, d.State()), e, e.State())
  {
  }

  lemma ViewDeviceChange(u: Universe, w: World<Engine, Device>, d: Device)
    requires w.engines.Keys == u.engines && w.devices.Keys == u.devices
    requires d in u.devices
    requires forall o :: o in u.engines ==> o.State() == w.engines[o]
    requires forall o :: o in u.devices && o != d ==> o.State() == w.devices[o]
    ensures u.View() == SetDevice(w, d, d.State())
  {
  }

  lemma ViewEngineChange(u: Universe, w: World<Engine, Device>, e: Engine)
    requires w.engines.Keys == u.engines && w.devices.Keys == u.devices
    requires e in u.engines
    requires forall o :: o in u.engines && o != e ==> o.State() == w.engines[o]
    requires forall o :: o in u.devices ==> o.State() == w.devices[o]
    ensures u.View() == SetEngine(w, e, e.State())
  {
  }

  /** registerNewHandle on a loaded device, put together from its two effects. */
  lemma NewHandleLoaded(w: World<Engine, Device>, d: Device, h: Option<int>, ds: DeviceState<Engine>, e: Engine,
                        es: EngineState<Device>)
    requires Known(w, d) && w.devices[d].engine == Some(e)
    requires ds == w.devices[d].(handle := h, taken := w.devices[d].taken + Current(h))
    requires es == AddHandle(w.engines[e], w.devices[d].handle, h, d)
    ensures SetEngine(SetDevice(w, d, ds), e, es) == NewHandle(w, d, h)
  {
  }

  /** Once the back pointer is cleared, deRegisterDevice has only its tail to do. */
  lemma DeregisterUnloaded(w: World<Engine, Device>, w1: World<Engine, Device>, e: Engine, d: Device)
    requires Known(w, d) && w.devices[d].engine == Some(e)
    requires w1 == SetDevice(w, d, w.devices[d].(engine := None))
    ensures Deregister(w1, e, d) == Deload(w, d)
  {
  }

  class Engine {
    var pollDevices: seq<PollFd>
    var deviceMapping: map<int, Device>
    var deviceList: seq<Device>

    constructor ()
      ensures State() == EngineState([], map[], [])
    {
      pollDevices, deviceMapping, deviceList := [], map[], [];
    }

    ghost function State(): EngineState<Device>
      reads this
    {
      EngineState(pollDevices, deviceMapping, deviceList)
    }

    method FindHandleInList(handle: Option<int>) returns (pos: nat)
      ensures pos == FindHandle(pollDevices, handle)
    {
      if handle.None? {
        return |pollDevices|;
      }
      pos := 0;
      while pos < |pollDevices| && pollDevices[pos].fd != handle.value
        invariant pos <= |pollDevices|
        invariant forall j :: 0 <= j < pos ==> pollDevices[j].fd != handle.value
      {
        pos := pos + 1;
      }
    }

    method FindInDeviceList(device: Device) returns (pos: nat)
      ensures pos == Find(deviceList, device)
    {
      pos := 0;
      while pos < |deviceList| && deviceList[pos] != device
        invariant pos <= |deviceList|
        invariant forall j :: 0 <= j < pos ==> deviceList[j] != device
      {
        pos := pos + 1;
      }
    }

    method RegisterNewHandle(oldHandle: Option<int>, newHandle: Option<int>, device: Device)
      returns (code: ReturnCode)
      modifies this
      ensures State() == AddHandle(old(State()), oldHandle, newHandle, device)
      ensures code == if newHandle.None? then PASSABLE else OK
    {
      if newHandle.None? {
        return PASSABLE;
      }
      var pos := FindHandleInList(oldHandle);
      if pos == |pollDevices| {
        pollDevices := pollDevices + [PollFd(newHandle.value, PollIn)];
        deviceMapping := Insert(deviceMapping, newHandle.value, device);
        return OK;
      }
      if oldHandle.Some? {
        deviceMapping := deviceMapping - {oldHandle.value};
      }
      deviceMapping := Insert(deviceMapping, newHandle.value, device);
      pollDevices := pollDevices[pos := pollDevices[pos].(fd := newHandle.value)];
      return OK;
    }

    method DeRegisterHandle(handle: Option<int>) returns (code: ReturnCode)
      modifies this
      ensures State() == DropHandle(old(State()), handle)
      ensures code == if handle.None? then PASSABLE
                      else if HasFd(old(pollDevices), handle.value) then OK else NOK
    {
      if handle.None? {
        return PASSABLE;
      }
      var pos := FindHandleInList(handle);
      if pos == |pollDevices| {
        return NOK;
      }
      pollDevices := RemoveAt(pollDevices, pos);
      deviceMapping := deviceMapping - {handle.value};
      return OK;
    }

    method RequestRead(handle: Option<int>)
      modifies this
      ensures State() == SetInterest(old(State()), handle, PollIn)
    {
      var pos := FindHandleInList(handle);
      if pos == |pollDevices| {
        return;
      }
      pollDevices := pollDevices[pos := pollDevices[pos].(events := PollIn)];
    }

    method RequestWrite(handle: Option<int>)
      modifies this
      ensures State() == SetInterest(old(State()), handle, PollOut)
    {
      var pos := FindHandleInList(handle);
      if pos == |pollDevices| {
        return;
      }
      pollDevices := pollDevices[pos := pollDevices[pos].(events := PollOut)];
    }

    /** The tail of registerDevice, once the device is in no engine. */
    method Adopt(device: Device, ghost u: Universe) returns (code: ReturnCode)
      requires this in u.engines && device in u.devices && u.Closed()
      modifies this, device`loadedEngine
      ensures u.Closed()
      ensures u.View() == Adopted(old(u.View()), this, device)
      ensures code == if device.deviceHandle.None? then PASSABLE else OK
    {
      device.LoadEngine(this);
      deviceList := deviceList + [device];
      var handle := device.deviceHandle;
      code := RegisterNewHandle(None, handle, device);
      ViewChange(u, old(u.View()), this, device);
    }

    method RegisterDevice(device: Device, ghost u: Universe) returns (code: ReturnCode)
      requires this in u.engines && device in u.devices && u.Closed()
      modifies u.engines, device`loadedEngine
      ensures u.Closed() && u.View() == Register(old(u.View()), this, device)
      ensures code == if device in old(deviceList) || device.deviceHandle.None? then PASSABLE else OK
    {
      var item := FindInDeviceList(device);
      assert item < |deviceList| <==> device in u.View().engines[this].list;
      if item != |deviceList| {
        return PASSABLE;
      }
      if device.loadedEngine != null {
        device.DeloadEngine(u);
      } else {
        assert Deload(u.View(), device) == u.View();
      }
      code := Adopt(device, u);
    }

    /** The tail of deRegisterDevice: forget the handle, then the device. */
    method Forget(device: Device, ghost u: Universe)
      requires this in u.engines && device in u.devices && u.Closed()
      modifies this
      ensures u.Closed()
      ensures u.View() == Forgotten(old(u.View()), this, device)
    {
      var _ := DeRegisterHandle(device.deviceHandle);
      var item := FindInDeviceList(device);
      if item != |deviceList| {
        deviceList := RemoveAt(deviceList, item);
      }
      ViewEngineChange(u, old(u.View()), this);
    }

    /** Mutually recursive with Device.DeloadEngine, which clears the back pointer
        before it calls here again; that is why the recursion ends. */
    method DeRegisterDevice(device: Device, ghost u: Universe) returns (code: ReturnCode)
      requires this in u.engines && device in u.devices && u.Closed()
      modifies u.engines, device`loadedEngine
      ensures u.Closed() && u.View() == Deregister(old(u.View()), this, device)
      ensures device.loadedEngine == null && code == OK
      decreases if device.loadedEngine == null then 0 else 1, 1
    {
      var deviceEngine := device.loadedEngine;
      if deviceEngine != null {
        device.DeloadEngine(u);
      }
      Forget(device, u);
      return OK;
    }
  }

  class Device {
    var deviceHandle: Option<int>
    var loadedEngine: Engine?
    ghost var taken: multiset<int>
    ghost var closed: multiset<int>

    constructor ()
      ensures State() == DeviceState(None, None, multiset{}, multiset{})
    {
      deviceHandle, loadedEngine := None, null;
      taken, closed := multiset{}, multiset{};
    }

    ghost function State(): DeviceState<Engine>
      reads this
    {
      DeviceState(deviceHandle, LoadedEngine(), taken, closed)
    }

    ghost function LoadedEngine(): Option<Engine>
      reads this
    {
      if loadedEngine == null then None else Some(loadedEngine)
    }

    method LoadEngine(engine: Engine)
      modifies this`loadedEngine
      ensures loadedEngine == engine
    {
      loadedEngine := engine;
    }

    method DeloadEngine(ghost u: Universe)
      requires this in u.devices && u.Closed()
      modifies u.engines, this`loadedEngine
      ensures u.Closed() && u.View() == Deload(old(u.View()), this)
      ensures loadedEngine == null
      decreases if loadedEngine == null then 0 else 1, 0
    {
      var currentEngine := loadedEngine;
      loadedEngine := null;
      ViewDeviceChange(u, old(u.View()), this);
      ghost var w, w1 := old(u.View()), u.View();
      if currentEngine != null {
        var _ := currentEngine.DeRegisterDevice(this, u);
        DeregisterUnloaded(w, w1, currentEngine, this);
      } else {
        assert w.devices[this] == State();
        assert w1.devices == w.devices;
      }
    }

    method GiveHandle(handle: Option<int>)
      modifies this
      ensures State() == old(State()).(handle := handle, taken := old(taken) + Current(handle))
    {
      deviceHandle := handle;
      taken := taken + Current(handle);
    }

    method RegisterNewHandle(handle: Option<int>, ghost u: Universe)
      requires this in u.devices && u.Closed()
      modifies u.engines, this
      ensures u.Closed() && u.View() == NewHandle(old(u.View()), this, handle)
    {
      if loadedEngine != null {
        var _ := loadedEngine.RegisterNewHandle(deviceHandle, handle, this);
      }
      GiveHandle(handle);
      ghost var w := old(u.View());
      if loadedEngine != null {
        hide NewHandle, AddHandle;
        ViewChange(u, w, loadedEngine, this);
        NewHandleLoaded(w, this, handle, State(), loadedEngine, loadedEngine.State());
      } else {
        ViewDeviceChange(u, w, this);
      }
    }

    method CloseHandle()
      modifies this`closed
      ensures closed == old(closed) + Current(deviceHandle)
    {
      if deviceHandle.Some? {
        closed := closed + multiset{deviceHandle.value};
      }
    }

    method DestroyHandle(ghost u: Universe)
      requires this in u.devices && u.Closed()
      modifies u.engines, this
      ensures u.Closed() && u.View() == RegistryModel.DestroyHandle(old(u.View()), this)
    {
      CloseHandle();
      if loadedEngine != null {
        var _ := loadedEngine.DeRegisterHandle(deviceHandle);
        deviceHandle := None;
        ViewChange(u, old(u.View()), loadedEngine, this);
      } else {
        ViewDeviceChange(u, old(u.View()), this);
      }
    }

    method RequestRead(ghost u: Universe)
      requires this in u.devices && u.Closed()
      modifies u.engines
      ensures u.View() == Request(old(u.View()), this, PollIn)
    {
      if loadedEngine != null {
        loadedEngine.RequestRead(deviceHandle);
        ViewEngineChange(u, old(u.View()), loadedEngine);
      }
    }

    method RequestWrite(ghost u: Universe)
      requires this in u.devices && u.Closed()
      modifies u.engines
      ensures u.View() == Request(old(u.View()), this, PollOut)
    {
      if loadedEngine != null {
        loadedEngine.RequestWrite(deviceHandle);
        ViewEngineChange(u, old(u.View()), loadedEngine);
      }
    }

    method RegisterChildDevice(device: Device, ghost u: Universe)
      requires this in u.devices && device in u.devices && u.Closed()
      modifies u.engines, device`loadedEngine
      ensures u.Closed()
      ensures u.View() == if old(loadedEngine) == null then old(u.View())
                          else Register(old(u.View()), old(loadedEngine), device)
    {
      if loadedEngine != null {
        var _ := loadedEngine.RegisterDevice(device, u);
      }
    }

    /** ~Device: afterwards the universe goes on without it. */
    method Destruct(ghost u: Universe)
      requires this in u.devices && u.Closed()
      modifies u.engines, this`loadedEngine
      ensures u.Closed()
      ensures u.(devices := u.devices - {this}).View() == RegistryModel.Destruct(old(u.View()), this)
    {
      DeloadEngine(u);
      ghost var v := u.(devices := u.devices - {this});
      assert v.View().engines == u.View().engines;
      assert v.View().devices == u.View().devices - {this};
    }
  }
}
