# Verified model of the transport-cpp event loop

transport-cpp is an event-loop networking library. Its state is spread over linked
objects that must always agree: engines hold a poll vector, an index from descriptors
to devices and a list of devices; each device holds a handle and a pointer back to its
engine; network devices add outgoing queues, connections and peers on top. This project
models those objects in Dafny and proves what they keep over every run.

Most parts come in two layers. A *value layer* says what every operation does to a plain
value (`RegistryModel`, `Dispatch`, `EndpointModel`, `UdpServerModel`, `Timers`), and
lemmas prove the properties of runs about it. An *object layer* (`Registry`,
`EngineLoop`, `Sockets`, `NetworkDevices`, `DeviceRounds`, `UdpServers`, the classes of `Timers`) has the
classes with their fields and the methods in the shape of the source; each method is
proved to change the objects exactly as the value layer says and, for devices, to keep the
registry coherent and every other device untouched.

| file | content |
|---|---|
| `Basics.dfy` | return codes, `std::find` and `erase` on sequences |
| `RegistryModel.dfy`, `RegistryLaws.dfy`, `Registry.dfy` | engines and devices: the registry, coherence over runs, the objects |
| `Dispatch.dfy`, `DispatchLaws.dfy`, `EngineLoop.dfy` | one dispatch round: scan, re-entrant callbacks, the objects |
| `Sockets.dfy` | the address cursor and the connect and bind loops |
| `EndpointModel.dfy`, `EndpointEffects.dfy`, `EndpointLaws.dfy`, `EndpointSession.dfy`, `EndpointNotices.dfy`, `EndpointInterest.dfy`, `NetworkDevices.dfy` | a network device: what each call and event does, queues, sessions, descriptors, notifications, write interest, the objects |
| `DeviceRounds.dfy` | a dispatch round that calls network devices as objects |
| `UdpServerModel.dfy`, `UdpServerEffects.dfy`, `UdpServers.dfy` | the UDP server and its peers |
| `Timespec.dfy`, `Timers.dfy` | duration conversion in doubles, the timer against the kernel timer |
| `TimedWaits.dfy`, `ReadLoop.dfy` | the timed wait loops and the read loop |

`dafny verify dfyconfig.toml` checks the project.

What system calls answer, what user handlers do and how the clock runs are parameters.
A handler is any finite sequence of API calls, and calls made by a handler may run further
handlers.

## Where the code falls short

Some properties that the library is there for hold only under a condition. The code is
modelled as it is, and the exact condition is proved.

- The registry stays coherent exactly when no device brings in a descriptor that is mapped
  to another device and no live handle is replaced by an empty one (`RunCoherentIff`,
  broken in `SharingBreaks`).
- A descriptor that is closed and handed out again during a round can make the round call
  the wrong device (`StaleCallPossible`). It does exactly when the last step that put the
  descriptor into this engine was about another device than the one that owned it when
  `poll` reported it, and no later step took it out (`WrongCallIff`).
- `destroyHandle` on a device outside any engine closes the descriptor and keeps the
  handle (`LoseHandleOwnedIff`). A client that disconnects there, or meets a hangup in a
  synchronous send, and every bound UDP server that was never in an engine, have a
  descriptor closed twice (`UnloadedClosedTwice`, `UnloadedHangupClosedTwice`,
  `UnloadedServerClosesTwice`). Over a run the account is right exactly when the run has no
  such strays (`RunOwnedIff`). The library's own README says that connections are managed by
  object lifetime.
- Such a client may notify a disconnect for no connection (`HangupNotifiedTwice`);
  notifications stay within the connections made exactly when these do not outnumber the
  connections that ended otherwise or still last (`RunNoticesIff`).
- A synchronous send, connecting, binding or initialising outside a write event, or joining
  an engine leaves pending messages with an interest in reading only; nothing else does
  (`RunArmedIff`). A TCP client whose disconnect handler reconnects is an example
  (`ReconnectingHandlerDisarms`). For the UDP server a bind over pending messages does it
  (`ServeArmedIff`, `RebindStrands`).
- The UDP server runs the network callback before it notes whom the message came from. An
  answer that the callback sends with `asyncSend` or `syncSend` therefore goes to the source
  of the message before, and is refused on the first message (`EchoGoesAstray`); it reaches
  the source of the message being read exactly when the one before came from there too and
  the server can send (`CallbackAnswersIff`).
- A UDP peer joins the server's table after its new-peer handler has returned, so when that
  handler disconnects the server the peer stays valid on an unbound server
  (`ValidPeerOfUnboundServer`).
- After the UDP server disconnects or binds again, an address it already knew is routed to
  its old, invalid peer, which cannot answer (`ReturningPeerIsMute`).
- `Timer::start` with a duration of zero succeeds, reports a running timer and leaves
  the kernel timer disarmed (`StartAgreesIff`, over runs `RunTimerIff`).
- `POLLRDHUP` is never asked for, so `readyPeerDisconnect` is never dispatched
  (`ReadyIsClassified`).

## Model

| member | source | states |
|---|---|---|
| RegistryModel.RegisterCoherentIff | src/engine.cpp:193-214 | registering keeps all three structures of all engines in agreement exactly when the device is already listed or its descriptor is not mapped to another device |
| RegistryModel.DeregisterCoherentIff | src/engine.cpp:216-234 | deregistering on any engine, also one that does not hold the device, keeps agreement exactly when the handle is not mapped there to another device, and then equals unloading |
| RegistryModel.NewHandleCoherentIff | src/device.cpp:113-121 | replacing a handle keeps agreement exactly when it is not empty over a live one and not mapped to another device |
| RegistryModel.DestroyHandleKeeps | src/device.cpp:146-153 | destroying a handle always keeps agreement |
| RegistryModel.DeloadKeeps | src/device.cpp:26-37 | unloading keeps agreement, leaves the device in no list and takes exactly its entries out of every mapping |
| RegistryModel.DestructKeeps | src/device.cpp:9-13 | destroying a device keeps agreement and leaves no pointer to it |
| RegistryModel.RequestKeeps | src/engine.cpp:343-361 | changing the interest keeps agreement |
| RegistryLaws.StepCoherentIff | src/engine.cpp:193-287 | every API step keeps the registry coherent exactly when its guard holds |
| RegistryLaws.RunCoherentIff | src/engine.cpp:193-287 | over any run on any engines and devices the registry is coherent at every moment exactly when every step met its guard |
| RegistryLaws.EmptyCoherent | include/transport-cpp/engine.h:42-44 | engines and devices start coherent, so every run from the start falls under the theorem above |
| DispatchLaws.SharingBreaks | src/engine.cpp:236-266 | a coherent registry in which a shared descriptor, or an empty handle over a live one, breaks coherence |
| RegistryLaws.SharedStaysWithFirst | src/engine.cpp:236-266 | a shared descriptor keeps leading to the device that had it first |
| RegistryLaws.DeregisterEffect | src/engine.cpp:216-234 | afterwards every engine has exactly its entries about other devices, in order and with their interest, and only the back pointer of this device changed |
| RegistryLaws.RegisterEffect | src/engine.cpp:193-214 | registering moves the device from whichever engine held it to the end of the new one, for reading, and moves nothing else |
| RegistryLaws.RegisterRoundTrip | src/engine.cpp:193-234 | deregistering undoes registering completely |
| RegistryLaws.NewHandleEntry | src/engine.cpp:236-266 | a new handle takes over the old one's poll entry and interest, a first one is polled for reading, other devices keep theirs |
| RegistryLaws.DestroyHandleEntry | src/engine.cpp:268-287 | the device loses its entry, every other device keeps its own with its interest |
| RegistryLaws.RequestEntry | src/engine.cpp:343-361 | exactly this device's interest changes, if it has an entry |
| RegistryLaws.RegisterEntry | src/engine.cpp:193-214 | re-registering keeps the interest, joining starts with reading, other devices keep theirs |
| Registry.Engine.FindHandleInList | src/engine.cpp:289-300 | finds the first entry with the descriptor, or the end |
| Registry.Engine.RegisterNewHandle | src/engine.cpp:236-266 | changes poll vector and mapping as specified, with the return code |
| Registry.Engine.DeRegisterHandle | src/engine.cpp:268-287 | removes the entry and the mapping; NOK exactly when the descriptor is not polled |
| Registry.Engine.RegisterDevice | src/engine.cpp:193-214 | the whole heap of engines and devices changes as the registry step says |
| Registry.Engine.DeRegisterDevice | src/engine.cpp:216-234 | terminates through the mutual recursion with deloadEngine, clears the back pointer and does to the heap what the non-recursive step says |
| Registry.Device.DeloadEngine | src/device.cpp:26-37 | the other half of that recursion |
| Registry.Device.RegisterNewHandle | src/device.cpp:113-121 | refines the handle replacement step |
| Registry.Device.DestroyHandle | src/device.cpp:146-159 | closes the handle once and refines the destruction step, in and outside an engine |
| Registry.Device.RegisterChildDevice | src/device.cpp:161-165 | registers the child with the parent's engine, if any |
| Registry.Device.Destruct | src/device.cpp:9-13 | unloads, so that the rest of the universe goes on without the device |
| Dispatch.Scan | src/engine.cpp:128-152 | stopping after as many classified entries as poll reported gives the same six lists as classifying every entry |
| Dispatch.EarlyExitComplete | src/engine.cpp:149-151 | past the exit point nothing is left to classify |
| Dispatch.ReadyIsClassified | src/engine.cpp:128-147 | under poll's contract each ready entry has exactly one class, errors first, and never the sixth |
| DispatchLaws.ScheduleDistinct | src/engine.cpp:154-188 | no descriptor is due twice, and each is due for the class of its own revents |
| DispatchLaws.ScheduleComplete | src/engine.cpp:154-188 | every classified entry is due, and classes are served in the fixed order |
| DispatchLaws.ScheduleInPollOrder | src/engine.cpp:128-147 | within one class descriptors are due in the order of the poll vector |
| Dispatch.RoundSafe | src/engine.cpp:154-188 | whatever guarded API steps the callbacks take mid-round, each call goes to a device that is listed in this engine and owns that descriptor at that moment, and the registry ends coherent |
| Dispatch.RoundAnswers | src/engine.cpp:154-188 | the calls answer due entries in order, at most one each, however many devices callbacks register |
| Dispatch.AnswersOnce | src/engine.cpp:154-188 | no descriptor is called twice in a round |
| DispatchLaws.UndisturbedCalledOnce | src/engine.cpp:154-188 | a ready device that no earlier callback of the round touches is called exactly once, for its own event, whatever its own callback does |
| DispatchLaws.OwnCallbacksServeAll | src/engine.cpp:154-188 | when every callback acts on its own device only, each due descriptor gets exactly its own call, in order, to its owner at poll time, also when numbers are closed and handed out again in between |
| DispatchLaws.StepOwner | src/engine.cpp:193-287 | each guarded API step puts a descriptor under its own device, takes it from its own device, or leaves its owner alone, with the exact cases |
| DispatchLaws.OwnerAfterIff | src/engine.cpp:193-287 | after any guarded run a descriptor leads to a device exactly when the last step that moved it put it there, or it was there and none moved it |
| DispatchLaws.WrongCallIff | src/engine.cpp:154-188 | a call goes to another device than the owner at poll time exactly when the last step before it that put the descriptor into this engine was about another device and none took it out since |
| DispatchLaws.TurnCallsIff | src/engine.cpp:154-188 | whether a due descriptor is served, and through which device, in terms of the steps taken so far in the round |
| DispatchLaws.NoStaleCall | src/engine.cpp:154-188 | corollary: if only its owner puts a descriptor back, also after closing it, whoever is called for it owned it when poll reported it |
| DispatchLaws.StaleCallPossible | src/engine.cpp:154-188 | with reuse, a device receives the event of another one |
| DispatchLaws.LiveCallHasEntry | src/engine.cpp:155-157 | a called device has a poll entry, which is what the device model assumes of ready events |
| EngineLoop.Perform | src/engine.cpp:193-361 | an API call on the objects is the registry step |
| EngineLoop.ReadyLoop | src/engine.cpp:154-158 | one loop over a list takes exactly its turns of the round |
| EngineLoop.AwaitOnceUpto | src/engine.cpp:101-191 | the method performs the round on the heap, serves only when poll found something, and inherits its safety, with callbacks that make any registry calls |
| DeviceRounds.ServeTurns | src/engine.cpp:154-188 | the callbacks of a round made on network device objects: the registry goes through a guarded round, and each device through its own event at its turn |
| DeviceRounds.OnceEffect | src/engine.cpp:154-188 | what each of the six callbacks is to a device of each kind |
| DeviceRounds.AwaitOnceUpto | src/engine.cpp:101-191 | scan and round over network device objects: the registry ends coherent; every polled device becomes what the revents of its entry say: POLLIN alone reads, POLLOUT alone writes, an error reconnects a UDP client, a hangup without an error ends a TCP connection; it is served once, the others are untouched, and all keep their messages, sessions and descriptor accounts |
| DeviceRounds.FreedNumberFits | src/udpclient.cpp:57-61 | that covers a number that one callback closes and the system gives to another device in the same round |
| Sockets.CursorVisitsEachOnce | src/networkdevice.cpp:622-634 | successive calls of next give each node once, in order, and null ever after |
| Sockets.AddrInfo.LoadHints | src/networkdevice.cpp:604-620 | a lookup resets the cursor, a failed one leaves an empty list |
| Sockets.AddrInfo.Next | src/networkdevice.cpp:622-634 | moves the cursor as specified |
| Sockets.AcquiredIff | src/networkdevice.cpp:251-270 | a socket results exactly when some candidate is accepted after nothing but refusals, and it is that one's |
| Sockets.TryCandidates | src/networkdevice.cpp:311-335 | the loop closes every refused socket, closes nothing twice and leaves open only the one it returns, also on the early aborts |
| Sockets.AcquiredFromIff | src/networkdevice.cpp:221-273 | the same for a whole lookup, which is tried from its first address on |
| Sockets.FirstAddressWins | src/networkdevice.cpp:244-269 | in particular a host whose first address is accepted gets its socket |
| Sockets.AcquireSocket | src/networkdevice.cpp:221-273 | with the lookup: the socket of the address that wins, exactly when one does, or nothing left open |
| Sockets.CreateSocket | src/networkdevice.cpp:217-340 | OK exactly when an address wins, and then the device's handle is its socket; on NOK nothing changed and nothing is left open |
| EndpointEffects.AsyncSendEffect | src/iodevice.cpp:70-88 | accepted exactly when loaded or ready, with a payload: one message more at the end of the queue and the interest in writing, else nothing changes |
| EndpointEffects.SendToEffect | src/networkdevice.cpp:25-42 | accepted exactly when loaded, with a payload, for the destination that was named |
| EndpointEffects.SyncSendEffect | src/iodevice.cpp:89-103 | the payload is handed over exactly when the device is ready, a multicaster when initialised with a group and the others with a handle; then what each outcome of poll and write does to each kind of device, and its code |
| EndpointEffects.SyncSendToEffect | src/networkdevice.cpp:83-94 | handed over at once to the destination that was named, OK exactly when there is a socket and the system takes it |
| EndpointEffects.OpenEffect | src/tcpclient.cpp:20-33 | connecting, binding and initialising answer OK exactly when they get a socket, which is then the handle of a connected device, polled for reading in an engine; else NOK and disconnected |
| EndpointEffects.DisconnectEffect | src/udpreceiver.cpp:8-11 | the handle is closed, and forgotten in an engine; the session is over and nobody notified |
| EndpointEffects.PublishEffect | src/udpmulticaster.cpp:71-159 | only an initialised multicaster takes a group, and is ready exactly when the group was valid |
| EndpointEffects.LoadEffect | src/engine.cpp:193-234 | joining an engine starts with an interest in reading, rejoining changes nothing, leaving ends it |
| EndpointEffects.PeerLostEffect | src/tcpclient.cpp:110-115 | when the peer is gone the handle is closed and one disconnect notified |
| EndpointEffects.HandlerEffect | src/tcpclient.cpp:104-108 | a handler's calls act one after the other, each on what the ones before left |
| EndpointEffects.SendsInOrder | src/iodevice.cpp:70-88 | what a handler sends is queued in the order of its calls |
| EndpointEffects.ReadEffect | src/tcpclient.cpp:69-92 | an empty read ends a TCP connection, failed or not; the others notify unless the read failed |
| EndpointEffects.AlarmEffect | src/udpclient.cpp:57-61 | an error reconnects a UDP client, a hangup ends a TCP connection, other kinds are left alone |
| EndpointEffects.WriteEventEffect | src/networkdevice.cpp:357-383 | a write event, whatever its send sets off: which message is handed over and taken off for each kind, and the interest afterwards |
| EndpointEffects.DestructEffect | src/iodevice.cpp:10-20 | destruction closes the handle, if any |
| EndpointLaws.PerformExtends | src/iodevice.cpp:353-419 | no call, with all the handlers it sets off, takes a message out of a queue or enters one as handed over from it |
| EndpointLaws.PopRestores | src/iodevice.cpp:246-269 | while the front of a queue is with the system the account is off by it, whatever is queued meanwhile; removing one message, not none or two, balances it again |
| EndpointLaws.DeliverConserves | src/iodevice.cpp:246-269 | every call and ready event keeps accepted = handed to the system followed by pending, in both queues; what was handed over is logged where performSyncSend, performSendTo or sendto gets the message, apart from the queues |
| EndpointLaws.RunConserves | src/networkdevice.cpp:357-383 | the same over every run, with failures, reconnects and re-entrant calls; logs only grow |
| EndpointSession.DeliverSettled | src/tcpclient.cpp:15-115 | every event keeps the session and the descriptor account of a loaded device of any kind |
| EndpointSession.RunSettled | src/tcpclient.cpp:15-115 | connected, having a handle and being polled are one thing; established = notified + dropped + current, with reconnects inside handlers |
| EndpointSession.RunLedger | src/device.cpp:146-159 | over every run, in and outside engines, a device closes or holds exactly what it took plus its strays: the descriptors closed outside an engine without being replaced, in handlers too |
| EndpointSession.RunOwnedIff | src/iodevice.cpp:10-20 | so the account holds after a run exactly when there are no strays, and destruction closes the strays a second time |
| EndpointSession.LifeClosesAll | src/iodevice.cpp:10-20 | from registration to destruction a loaded client, receiver or multicaster closes every descriptor exactly once, and disconnect notifications never exceed connections |
| EndpointSession.LoseHandleOwnedIff | src/device.cpp:146-153 | destroyHandle keeps the account exactly when the device is loaded or has no handle |
| EndpointSession.OpenOwnedIff | src/udpreceiver.cpp:17-29 | connecting, binding or initialising keeps the account exactly when loaded, without a handle, or successful |
| EndpointSession.UnloadedClosedTwice | src/tcpclient.cpp:15-18 | a client outside an engine that disconnects has its descriptor closed again on destruction |
| EndpointSession.UnloadedHangupClosedTwice | src/iodevice.cpp:386-390 | so does one that meets a hangup in a synchronous send there |
| EndpointSession.LoseHandleTwice | src/device.cpp:146-153 | in an engine a second destroyHandle closes nothing |
| EndpointNotices.RunCount | src/tcpclient.cpp:110-115 | over every run, in and outside engines, sessions ended and present are those begun plus the notifications that ended none |
| EndpointNotices.RunNoticesIff | src/tcpclient.cpp:104-115 | when a device has notified no more disconnects than it made connections, over all runs |
| EndpointNotices.LoadedNoPhantoms | src/tcpclient.cpp:94-115 | in engines every notification ends a connection |
| EndpointNotices.HangupNotifiedTwice | src/iodevice.cpp:386-390 | outside one, two hangups in synchronous sends notify twice for one connection |
| EndpointInterest.CallArmedIff | src/iodevice.cpp:353-419 | "pending implies POLLOUT" holds after a call and after every call that handlers make in it exactly when none of them is a writing synchronous send, an opening that gets a socket, or joining an engine, over pending messages |
| EndpointInterest.ArmedStepIff | src/iodevice.cpp:411-418 | the same for every event, with whatever its handlers call |
| EndpointInterest.RunArmedIff | src/engine.cpp:343-361 | the same over every run |
| EndpointInterest.ReconnectingHandlerDisarms | src/tcpclient.cpp:94-115 | a TCP client with pending messages whose disconnect handler reconnects is left with an interest in reading |
| EndpointInterest.WriteArmed | src/networkdevice.cpp:357-383 | a write event restores it whatever the send sets off |
| EndpointInterest.RunStaysArmed | src/engine.cpp:343-361 | corollary: runs without those calls never strand a message, with handlers that send |
| EndpointInterest.DrainStep | src/udpmulticaster.cpp:433-462 | a write event hands over exactly the message due next by the device's priority, and takes it off its queue |
| EndpointInterest.DrainPrefix | src/networkdevice.cpp:357-383 | after n write events exactly the first n messages in priority order have been handed over: datagrams first, for a multicaster stream sends first |
| EndpointInterest.DrainsCompletely | src/iodevice.cpp:246-269 | m + n write events hand over all messages in that order and one more turns the interest back to reading, not earlier |
| NetworkDevices.NetworkDevice.AsyncSend | src/iodevice.cpp:70-88 | refines the model, keeps the registry coherent and other devices as they are |
| NetworkDevices.NetworkDevice.SendTo | src/networkdevice.cpp:25-42 | the same |
| NetworkDevices.NetworkDevice.OpenWith | src/tcpclient.cpp:20-33 | the same, for connecting, binding and initialising; what that is and returns is stated by EndpointEffects.OpenEffect |
| NetworkDevices.NetworkDevice.PublishToGroup | src/udpmulticaster.cpp:71-159 | the same, for setting a multicaster's group |
| NetworkDevices.NetworkDevice.PeerDisconnected | src/tcpclient.cpp:110-115 | the same, with whatever the notified handler does |
| NetworkDevices.NetworkDevice.PerformSyncSend | src/iodevice.cpp:353-419 | the same, with the hooks it runs before writing |
| NetworkDevices.NetworkDevice.ReadyWrite | src/networkdevice.cpp:357-383 | the same, for each override of readyWrite |
| NetworkDevices.NetworkDevice.ReadyRead | src/tcpclient.cpp:69-92 | the same; an empty read ends a TCP connection |
| NetworkDevices.NetworkDevice.Deliver | src/engine.cpp:154-188 | the same, for every call and ready event of a polled device |
| NetworkDevices.NetworkDevice.DeliverTracked | src/engine.cpp:154-188 | whatever a call or ready event sets off, its effect on the registry is a sequence of API steps about this device that all meet their guards: a callback as the dispatch round assumes it |
| NetworkDevices.NetworkDevice.Attach | src/networkdevice.cpp:143 | any device whose registry part is sound can start to be followed, so the contracts above apply to every new one |
| UdpServerModel.RoutingRefines | src/udpserver.cpp:226-294 | with handlers that send, bind and disconnect: the peers are the sources read with a new-peer handler installed, each once, in order; each peer was given exactly its address's later messages |
| UdpServerModel.PeerValidIff | src/udpserver.cpp:128-135 | a peer keeps its place and is valid exactly as long as no disconnect or bind has happened, in a handler or outside |
| UdpServerModel.NewPeerValid | src/udpserver.cpp:257-290 | a peer is created only by a message, with its source's address, and joins the table valid, also when its handler disconnected the server |
| UdpServerModel.ValidPeerOfUnboundServer | src/udpserver.cpp:286-290 | a peer whose own handler disconnects the server stays valid on an unbound server |
| UdpServerEffects.ServerSendEffect | src/udpserver.cpp:174-216 | sendTo and syncSendTo of the server go where they are told, asyncSend and syncSend to whoever it heard last; what is queued or handed over, and the code |
| UdpServerEffects.PeerSendEffect | src/udpserver.cpp:41-122 | the same four calls of a peer, to its own address unless told otherwise while it is valid, refused without effect afterwards |
| UdpServerEffects.ServerBindEffect | src/udpserver.cpp:141-152 | OK exactly when an address is accepted, whose socket is then the handle of a bound server; else unbound; all peers are invalid either way |
| UdpServerEffects.ServerDisconnectEffect | src/udpserver.cpp:128-135 | the handle is closed and every peer keeps its address and messages but is no longer valid |
| UdpServerEffects.NotifyEffect | src/udpserver.cpp:137-139 | only installing a new-peer handler changes whether there is one |
| UdpServerEffects.ReceiveEffect | src/udpserver.cpp:226-294 | the order of a read: network callback on the server as it was, then the source is remembered, then the handler of the known peer with its message, or of the new peer, which then joins the table |
| UdpServerEffects.InputEffect | src/udpserver.cpp:226-237 | the other inputs: calls, failed reads, which do nothing, and the inherited write event |
| UdpServerEffects.HandlerEchoArrives | src/udpserver.cpp:286-292 | an answer from the handler of the peer, known or new, goes to the source of the message |
| UdpServerModel.ReturningPeerIsMute | src/udpserver.cpp:240-292 | an address known before a disconnect or bind is routed to its invalid peer |
| UdpServerModel.SendsToLastSource | src/udpserver.cpp:174-216 | between inputs asyncSend and syncSend of the server go to the source of the last message it read, and are refused before the first |
| UdpServerModel.HandlersSendTo | src/udpserver.cpp:238-292 | during a message, those from the network callback go to the source of the message before, those from the new-peer and peer handlers to the source of this one |
| UdpServerModel.CallbackAnswersIff | src/udpserver.cpp:238-247 | an answer from the network callback, by asyncSend or syncSend, reaches the source of the message being read exactly when the server can send and the message before came from there too |
| UdpServerModel.EchoGoesAstray | src/udpserver.cpp:238-247 | an echoing network callback is refused on the first message and answers the previous source afterwards |
| UdpServerModel.ServerIsDevice | src/udpserver.cpp:84-216 | every run of the server is, to the device it inherits, a run of a plain network device, so all laws of those hold of it |
| UdpServerModel.NewServerOk | src/udpserver.cpp:124 | a new server in an engine meets what the theorems on its runs start from |
| UdpServerModel.ServeArmedIff | src/udpserver.cpp:141-152 | pending messages stay polled for writing through an input and all its handlers call exactly when nothing binds over them |
| UdpServerModel.RebindStrands | src/udpserver.cpp:141-152 | binding again over pending messages leaves them with an interest in reading |
| UdpServerModel.ServerNeverStrands | src/udpserver.cpp:174-216 | over every run no message is lost, repeated or reordered, and none is stranded at any moment exactly when nothing binds over pending ones, with sends from handlers and peers |
| UdpServerModel.ServerLifeClosesAll | src/udpserver.cpp:126-152 | a loaded server closes every descriptor exactly once over any number of binds, in handlers too, and its destruction |
| UdpServerModel.UnloadedServerClosesTwice | src/udpserver.cpp:126-135 | one that was never loaded closes its descriptor twice |
| UdpServers.Server.ReadyRead | src/udpserver.cpp:226-294 | the network callback, the table, the last peer and the later handlers act on the objects in the source's order, as the model says |
| UdpServers.Server.Disconnect | src/udpserver.cpp:128-135 | invalidates every peer object and destroys the handle |
| UdpServers.Server.Bind | src/udpserver.cpp:141-152 | refines the model, with the code and effect of UdpServerEffects.ServerBindEffect |
| UdpServers.Server.Send | src/udpserver.cpp:174-216 | asyncSend, syncSend, sendTo and syncSendTo refine the model, with the codes and effects of UdpServerEffects.ServerSendEffect |
| UdpServers.Server.PeerSends | src/udpserver.cpp:41-122 | the same calls of a peer, through its hooks |
| Timespec.ShortConversion | src/timer.cpp:14-29 | below 2^52 ns the conversion is exact or one nanosecond short, in range, and exact on whole seconds |
| Timespec.LongConversion | src/timer.cpp:14-29 | for every 64-bit duration the result is a valid timespec within 2 ns and a relative 2^-51 |
| Timespec.NegativeConversion | src/timer.cpp:14-29 | negative durations convert like positive ones with the signs turned; from two nanoseconds on the system refuses the result |
| Timers.ConversionArms | src/timer.cpp:120-127 | only a zero duration converts to the value that disarms, only negative ones to invalid values |
| Timers.StartEffect | src/timer.cpp:94-137 | a positive start that the system takes leaves the kernel timer ticking with the duration set, up to the conversion, isRunning true and OK; a refused or negative one leaves it disarmed and stopped with NOK; zero leaves it disarmed and reported running |
| Timers.StopEffect | src/timer.cpp:53-82 | stopping leaves it disarmed and stopped, with OK exactly when it ran |
| Timers.ResumeEffect | src/timer.cpp:84-92 | resuming starts with the last duration set, and is refused without effect before the first start |
| Timers.StopResume | src/timer.cpp:53-92 | a timer that was started, stopped and resumed ticks again as it did |
| Timers.StartAgreesIff | src/timer.cpp:94-137 | after start, isRunning tells the truth exactly unless the duration was zero and the call succeeded |
| Timers.StartAccurate | src/timer.cpp:94-137 | a ticking timer has the set duration up to the conversion |
| Timers.CallTimerIff | src/timer.cpp:53-137 | after any one call, from any state a timer can be in, isRunning is right exactly unless that call was a start or resume of length zero that succeeded |
| Timers.RunTimerIff | src/timer.cpp:53-137 | over every run with any durations and failing calls a ticking timer has the set duration, and isRunning is right after every call exactly when no start or resume of length zero succeeds |
| Timers.NewTimerOk | src/timer.cpp:33-43 | a new timer meets what that starts from |
| Timers.Timer.StartTimer | src/timer.cpp:94-137 | the object is left as StartEffect says: armed and running after a positive start |
| Timers.Timer.StopTimer | src/timer.cpp:53-82 | the object is left as StopEffect says |
| Timers.Timer.ResumeTimer | src/timer.cpp:84-92 | the object is left as ResumeEffect says |
| TimedWaits.AwaitFor | src/engine.cpp:75-93 | terminates, not before the duration, polls only in-range timeouts within the remaining time, and is late by at most the last round's extra latency |
| TimedWaits.SyncReceive | src/iodevice.cpp:105-171 | ends with the first poll that found something or failed, times out only after the full duration and no later than awaitFor would, and gives every poll, also the last, a timeout within the remaining time |
| TimedWaits.Timeout | src/engine.cpp:80-87 | the timeout is in [0, INT_MAX], never exceeds the remaining time and is short of it by less than a millisecond unless clamped |
| ReadLoop.ReadIOData | src/iodevice.cpp:292-320 | returns the whole stream up to its end whatever pieces it came in, and an error exactly when the first read failed |
| ReadLoop.ConcatSnoc | src/iodevice.cpp:292-320 | the stream is the pieces one after the other |

## Left out

- `Engine::~Engine` (src/engine.cpp:10-14) erases from the list it iterates over, so nothing is claimed of it.
- mLastError and the loggers: `deRegisterDevice` records an error while returning OK, so error state says little; logging has no effect on state.
- Deleting a device inside its own callback, and nested awaits: the snapshot lists of a round are shared by all rounds of a thread. Handlers in the model therefore make API calls only.
- DeviceRounds.AwaitOnceUpto: all devices of the round are network devices, and a handler acts on its own device only. Rounds with callbacks that act on any device are those of EngineLoop.AwaitOnceUpto, where callbacks are sequences of registry calls.
- NetworkDevices.NetworkDevice.Deliver: handlers act on their own device; effects on other devices belong to the dispatch model.
- UdpServers.Server.ReadyRead: handlers do not move the server into or out of an engine, and calls on a new peer that its own handler makes appear as sends of the server to the peer's address, since the peer is not in the table yet.
- UdpServerModel.RoutingRefines: several datagrams drained by one read count as one message with one source; peers outlive the server's use of them, because the destruction notifier is never installed.
- EndpointSession.RunSettled: the device stays in some engine; for devices that leave, EndpointSession.RunLedger and EndpointNotices.RunCount give the accounts.
- Multicaster subscriptions, interfaces and loopback: options of the socket that no modelled state depends on; of publishing, whether the address is accepted is a parameter.
- What becomes of a message after it is handed to the system: the result of the write is a parameter, and a message whose write fails, or whose send meets a hangup, counts as handed over, since the source drops it there.
- The TCP acceptor and its peers: their descriptors enter the registry through registerChildDevice; accepting and the response path are not modelled.
- Timespec.ShortConversion: double rounding is described by its guarantees, not bit by bit, so which durations come out a nanosecond short is not determined.
- Payload ownership variants are one type, with a null pointer as an absent payload; bytes on the wire, address text, serial settings and timer callbacks are not modelled.
- Setting descriptors non-blocking in `IODevice::registerNewHandle`, and the single-round `awaitOnce` wrappers, add no state.
- Threads: the library documents one thread per engine; concurrent use is not modelled.
