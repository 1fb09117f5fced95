# outView: a verified model of the tunnel

outView is a TCP tunnel. A Java server reserves a fixed public port per device, and a Go client
behind a firewall keeps one control connection to it, over which external connections are
forwarded to a local service. This project models the parts whose correctness rests on the order
of small atomic steps, and proves what they keep over every run:

- **Server: device lifecycle.** `Reservations`, `PortMapping`, `Sessions` and `Listeners` model the
  four tables, each as functions on values and as the class that implements them. `DeviceLifecycle`
  is the step system of registration, disconnection, ban, deletion and port update under a lock per
  device, with failing writes and binds and dying channels; `DeviceConsistency`, `DeviceTheorems`,
  `Restoration` and `PortUpdates` prove its safety, `RegistrationResult`, `RemovalResult` and
  `ReplacedSessions` what its operations have done when they are over. `LifecycleService` is the service
  itself, methods over the three monitor classes, proved to perform exactly those steps (`SoloSteps` says
  what each step does alone).
- **Server: external connections.** `ExternalConnections` and `ExternalOwnership` (three indexes,
  ownership gate, once-only cleanup), `ExternalDelivery` (what is written, what closes, and that openings
  and cleanups end), `PendingBytes` (add, check, roll back).
- **Client.** `ControlConnection`, `ClientIsolation` and `ClientProgress` (generations of the control
  connection: isolation, and what gets done), `ForwardingTable` (local connections and closed-ID
  memory), `LocalQueue` (bounded queue to one socket), `Shutdown`, `Reconnect`.
- **Wire protocol.** `WireFormat`, `GoCodec`, `JavaCodec`, `DataPackets`.
- **WebRTC helpers.** `IceBuffer`, `BatchSender`, `BufferPool`.

## Three findings

*A failed registration can leave a listener behind.* `register` reads `previouslyActive` before it
binds, and trusts the flag when it has to undo the bind. The listener it saw may be another device's
tentative one, gone by the time of the bind. If the registration then fails, its own new listener
(and possibly the online flag) stays although there is no session. `OrphanExample` is such a run.
`DeviceConsistentThroughoutIff` says exactly when it happens: a device that is as it should be is
consistent in every state of a run if and only if no registration of it fails after its bind while
trusting the flag and having no session; `ConsistentThroughoutIff` says so of all devices at once.
With one operation at a time (`LifecycleService`) this cannot happen at all. A later registration,
or the end of a later session, repairs the device if and only if, before it, the device listened on
no port but the one it ends up with (`RegistrationRestoresIff`, `EndRestoresIff`). A listener left on
any other port, as after the reservation was deleted, is not repaired by anything until the device's
reservation is on that port or an update to it is tried (`LeftoverStays`); `LeftoverExample` gets to
one from start-up.

*Such a device can lose that listener to a failed port update.* `updatePort` to a port the device
already listens on reuses the listener, and when the write fails it stops it. `AllOrNothingIff`: a
call that passes its checks ends with all moved if its write went through and with nothing changed
if not, in every interleaving, if and only if the device is not online or does not listen on the new
port already. `LeftoverExample.UpdateCanLoseListener` is a run from start-up to a state in which it
is online and does.

*Overlapping setters can reverse ICE candidates.* Candidates are never lost or duplicated.
`OrderedThroughoutIff`: a run keeps flushed, held and buffered candidates in arrival order throughout
if and only if no setter is rejected with candidates while a later one holds some, and none hands one
over while an earlier one holds some. `OverlappingSettersReorder` is a run with overlapping calls in
which the later of two candidates is handed over first; setters that do not overlap meet the
condition (`OneSetterFlushesInOrder`). As the code stands no such overlap arises: the client's only
caller, `client/internal/client/signaling.go:218`, runs on the serial read loop by way of
`handleMessage` (`client/internal/client/client.go:210-213`), and nothing calls the sidecar's manager
yet. The condition matters to whoever adds a second caller.

## Assumptions

- A closed channel never becomes active again. Registration and inactive events of one control
  channel are serial: they run on that channel's executor
  (`src/main/java/com/outview/netty/ControlChannelInitializer.java:86-87`).
- A listening server channel closes only when `DataPortService` stops it, and a bind yields a server
  channel never used before.
- A database write that throws has changed nothing.
- The control channel of an external connection's own session names its ID only after the connection
  has been announced to it, that is after `channelActive` has finished. Other channels may name it
  earlier.
- The client's connections are made by one task, its reconnect loop.
- A flush function does not use its payload after it has returned.

Session objects are shared and mutable in the original; they are references into an explicit object
table here, and identity is equality of references. Device locks are one per device; the original
stripes 128 locks over all devices, which allows fewer interleavings. Clocks, dial, bind, write and
peer-connection results, and the identities of new objects are inputs of the steps and methods.

## Model

| member | source | states |
|---|---|---|
| Reservations.LowestFree | src/main/java/com/outview/service/PortMappingService.java:60-68 | the port found is in range, unreserved, and no smaller one is; none is found only when all are reserved |
| Reservations.FreshAllocationIsLeast | src/main/java/com/outview/service/PortMappingService.java:56-69 | a first allocation grants the smallest unreserved port of the range, and is refused exactly when every port is reserved |
| Reservations.AllocatedIff | src/main/java/com/outview/service/PortMappingService.java:56-69 | an allocation stores the granted port with its target port in cache and database exactly if a port is free and the write commits, and nothing otherwise; a device that has a port keeps it |
| Reservations.MarkedOnlineIff | src/main/java/com/outview/service/PortMappingService.java:71-79 | the row goes online with the target port just registered exactly if the write commits; no other row changes |
| Reservations.UpdatedIff | src/main/java/com/outview/service/PortMappingService.java:89-100 | the port moves exactly if nobody has the new one and the write commits, and nothing else of the row does |
| Reservations.PresetIff | src/main/java/com/outview/service/PortMappingService.java:102-112 | a port of the range is granted exactly if the device has none, nobody else has it and the write commits, and then it is stored |
| Reservations.ReleasedIff | src/main/java/com/outview/service/PortMappingService.java:114-121 | the row leaves cache and database exactly if the write commits |
| Reservations.ApplyKeepsWellFormed | src/main/java/com/outview/service/PortMappingService.java:56-121 | every operation, its write committed or not, keeps ports unique and cache and database equal up to the online flag |
| Reservations.RunRefinesDatabase | src/main/java/com/outview/service/PortMappingService.java:39-121 | the same over any sequence of operations, failed writes and restarts included |
| Reservations.FixedPortOverRuns | src/main/java/com/outview/service/PortMappingService.java:38-121 | a reserved port stays what it is over any run without a committed update or release of that device |
| Reservations.RestartRestoresReservations | src/main/java/com/outview/service/PortMappingService.java:38-54 | a restart after any run restores every reservation and only forgets who is online |
| PortMapping.InverseGivesTable | src/main/java/com/outview/service/PortMappingService.java:146-159 | mutually inverse maps are a table by device with unique ports, and a port is in the port map exactly when it is reserved |
| PortMapping.SharedPort | src/main/java/com/outview/service/PortMappingService.java:46-49 | the duplicate check fires only when two database rows really share a port |
| PortMapping.AllRowsLoaded | src/main/java/com/outview/service/PortMappingService.java:46-52 | a load without duplicates yields the database rows, all offline, whatever the order of the rows |
| PortMapping.PortMappingService.LoadPersistedMappings | src/main/java/com/outview/service/PortMappingService.java:38-54 | loading succeeds exactly for a sane range and rows with unique ports, and then the cache is the database |
| PortMapping.PortMappingService.Publish | src/main/java/com/outview/service/PortMappingService.java:154-159 | both maps take the row, the device's earlier port goes, the maps stay inverse and the snapshot equals them |
| PortMapping.PortMappingService.SaveRow | src/main/java/com/outview/service/PortMappingService.java:150-153 | database first: a write that throws changes neither database nor cache |
| PortMapping.PortMappingService.AllocatePort | src/main/java/com/outview/service/PortMappingService.java:56-69 | the loop over the range implements the allocation whose properties are proved above |
| PortMapping.PortMappingService.MarkDeviceOnline | src/main/java/com/outview/service/PortMappingService.java:71-79 | marks the device online with its new target port once the database has it; refuses unknown devices |
| PortMapping.PortMappingService.MarkDeviceOffline | src/main/java/com/outview/service/PortMappingService.java:81-87 | drops the online flag from the cache without the database |
| PortMapping.PortMappingService.UpdatePort | src/main/java/com/outview/service/PortMappingService.java:89-100 | moves the reservation to an unreserved port of the range, or changes nothing |
| PortMapping.PortMappingService.PresetPort | src/main/java/com/outview/service/PortMappingService.java:102-112 | reserves a given port for a device without one, or changes nothing |
| PortMapping.PortMappingService.ReleasePort | src/main/java/com/outview/service/PortMappingService.java:114-121 | removes the reservation from database and cache, or from neither |
| PortMapping.PortMappingService.GetDeviceByPort | src/main/java/com/outview/service/PortMappingService.java:136-139 | the lock-free read names the device holding the port, and none exactly when the port is free |
| PortMapping.PortMappingService.GetPortByDevice | src/main/java/com/outview/service/PortMappingService.java:135 | the lock-free read is the reserved port |
| Sessions.RegisterKeepsInverse | src/main/java/com/outview/service/SessionStore.java:41-68 | registration keeps both session maps inverse if and only if the channel does not serve another device |
| Sessions.RegistrationReplaces | src/main/java/com/outview/service/SessionStore.java:41-68 | the new session is current, online and serves its channel; the replaced one is offline and its channel serves nobody, unless it is the same channel; other sessions are untouched |
| Sessions.RemoveKeepsInverse | src/main/java/com/outview/service/SessionStore.java:120-130 | removal by channel keeps the maps inverse |
| Sessions.ByChannelIsCurrent | src/main/java/com/outview/service/SessionStore.java:80-92 | a session is found by its channel if and only if it is the current session of its device |
| Sessions.SessionStore.Register | src/main/java/com/outview/service/SessionStore.java:41-68 | installs the new session and names for closing exactly the channel of the session it replaces, if that is another channel |
| Sessions.SessionStore.GetSessionByChannel | src/main/java/com/outview/service/SessionStore.java:80-92 | the lookup is the function the iff above is about |
| Sessions.SessionStore.RemoveSessionByChannel | src/main/java/com/outview/service/SessionStore.java:120-130 | removes the session only if the channel still is its channel |
| Listeners.OthersKeepListeners | src/main/java/com/outview/service/DataPortService.java:55-99 | starting or stopping a port for one device never changes what another listens on |
| Listeners.DataPortService.StartDataPort | src/main/java/com/outview/service/DataPortService.java:55-82 | a live port is reused by its owner and refused to others; a new bind sets all three tables, and reuse, refusal and a failed bind change none of them |
| Listeners.DataPortService.StopAny | src/main/java/com/outview/service/DataPortService.java:84-95 | the port's three entries go together, its server channel is closed and all its connections are closed and forgotten |
| Listeners.DataPortService.StopDataPort | src/main/java/com/outview/service/DataPortService.java:97-99 | only the owner stops a port; for others nothing changes |
| Listeners.DataPortService.CloseConnections | src/main/java/com/outview/service/DataPortService.java:101-109 | all connections of the port go, the listener stays |
| Listeners.DataPortService.RegisterConnection | src/main/java/com/outview/service/DataPortService.java:111-119 | a connection is admitted if and only if the listener that accepted it is the port's live listener now |
| Listeners.DataPortService.RemoveConnection | src/main/java/com/outview/service/DataPortService.java:121-126 | removes that connection only |
| DeviceConsistency.StepKeepsInv | src/main/java/com/outview/service/DeviceLifecycleService.java:36-145 | one step of any operation, failing or not, keeps what holds of every device at every point of every operation |
| DeviceTheorems.EveryRunIsSafe | src/main/java/com/outview/service/DeviceLifecycleService.java:36-145 | after any interleaving: session port equals reserved port, a live session is listened for and shown online, a banned device has no session; and a device consistent at any earlier moment, start-up included, is consistent unless one of its registrations was abandoned since |
| DeviceTheorems.ConsistentUntilAbandoned | src/main/java/com/outview/service/DeviceLifecycleService.java:36-145 | a consistent device stays so over any run, whatever happened to it before, until a registration of its own is abandoned |
| Restoration.RegistrationRestoresIff | src/main/java/com/outview/service/DeviceLifecycleService.java:36-75 | a registration that goes through, under any interference, makes its device consistent if and only if, when it began, the device listened on no port but the one it ends up with |
| Restoration.EndRestoresIff | src/main/java/com/outview/service/DeviceLifecycleService.java:77-106 | so does a disconnect, a ban or the inactive event of the session's channel, for the reserved port; only a ban that cannot be saved leaves the session, and everything as it was |
| Restoration.LeftoverStays | src/main/java/com/outview/service/DeviceLifecycleService.java:114-119 | a listener left on a port the reservation is not on stays, and the device inconsistent, until its reservation is on that port or an update to it is tried |
| DeviceConsistency.TaskFrame | src/main/java/com/outview/service/DeviceLifecycleService.java:36-145 | no step of one device's operation changes another device's row, session, listeners or lock |
| DeviceTheorems.AbandonIsConsistentIff | src/main/java/com/outview/service/DeviceLifecycleService.java:50-64 | a registration that fails while trusting its flag leaves the device consistent if and only if the device has a session and listens on no port but its own |
| DeviceTheorems.DeviceConsistentThroughoutIff | src/main/java/com/outview/service/DeviceLifecycleService.java:36-145 | whatever happened before, a device as it should be is consistent in every state of a run in which its lock is free if and only if none of its registrations is abandoned on the way |
| DeviceTheorems.ConsistentThroughoutIff | src/main/java/com/outview/service/DeviceLifecycleService.java:36-145 | so is a run from start-up for all devices if and only if no registration is abandoned on the way |
| OrphanExample.ConsistencyCanBeLost | src/main/java/com/outview/service/DeviceLifecycleService.java:50-57 | a run of two devices with one failed write after which a device without a session owns a live listener |
| DeviceTheorems.ReplacedForever | src/main/java/com/outview/service/SessionStore.java:41-68 | a replaced session is never current again, whatever is registered later |
| DeviceTheorems.LateDisconnectIsHarmless | src/main/java/com/outview/service/DeviceLifecycleService.java:77-99 | the late inactive event of a replaced channel changes nothing after any further run; that of the current session starts dropping exactly it |
| ReplacedSessions.ReplacementClosesChannel | src/main/java/com/outview/service/SessionStore.java:48-66 | the step that installs a session closes exactly the channel of the session it replaces, if there is one and it is on another channel, and nothing otherwise |
| ReplacedSessions.ReplacedSessionsAreClosed | src/main/java/com/outview/service/DeviceLifecycleService.java:36-99 | after any run from start-up, for a device whose lock is free, every session it ever had and has no longer is offline, and its channel is closed or the current session's |
| RegistrationResult.RegistrationGoesThroughIff | src/main/java/com/outview/service/DeviceLifecycleService.java:36-75 | in every interleaving a registration installs its session if and only if nothing refuses it on the way: dead or foreign channel, ban, full range, failed bind or write |
| RegistrationResult.RegistrationStoresTarget | src/main/java/com/outview/service/DeviceLifecycleService.java:36-75 | a registration that installs its session leaves, under any interference, an online session on its channel and the reserved port, and the reservation online with its target port, in the database too |
| RemovalResult.DeletionReleasesIff | src/main/java/com/outview/service/DeviceLifecycleService.java:114-119 | in every interleaving a deletion leaves no session, tries to delete the reservation, and leaves none if and only if there was none or that write went through |
| RemovalResult.BanTakesEffectIff | src/main/java/com/outview/service/DeviceLifecycleService.java:101-106 | in every interleaving a ban tries to save itself; saved, the device is banned and has no session, otherwise nothing of it has changed |
| RemovalResult.UnbanLiftsIff | src/main/java/com/outview/service/DeviceLifecycleService.java:108 | a ban is lifted exactly if that is saved |
| PortUpdates.UpdateOutcomes | src/main/java/com/outview/service/DeviceLifecycleService.java:121-145 | every way an update can end, whatever happened before and meanwhile: all moved if its write went through, a live session then being listened for on the new port; untouched if not, but for a listener an online device already had on the new port |
| PortUpdates.UpdatePortIsAllOrNothing | src/main/java/com/outview/service/DeviceLifecycleService.java:121-145 | unless an online device already listens on the new port without owning it, row, session and listener have all moved if the write went through, and are all untouched if not, under any interference |
| PortUpdates.AllOrNothingIff | src/main/java/com/outview/service/DeviceLifecycleService.java:121-145 | a call that passes its checks is all or nothing, as its write decides, in every interleaving if and only if the device is not online or does not listen on the new port |
| PortUpdates.FailingUpdateLosesListener | src/main/java/com/outview/service/DeviceLifecycleService.java:133-139 | in every other state the update whose write fails stops a listener the device had before |
| LeftoverExample.UpdateCanLoseListener | src/main/java/com/outview/service/DeviceLifecycleService.java:121-145 | such a state is reached from start-up: a device online on one port that still listens on another |
| LeftoverExample.LeftoverCanStay | src/main/java/com/outview/service/DeviceLifecycleService.java:114-119 | and there registering has not removed the leftover listener, nor will anything that leaves its port alone |
| PortUpdates.AtMostOneWins | src/main/java/com/outview/service/DeviceLifecycleService.java:121-145 | in every reachable state no two devices have one port as reservation or, between operations, as session port |
| PortUpdates.RaceHasOneWinner | src/main/java/com/outview/service/DeviceLifecycleService.java:121-145 | two updates racing for one port in any interleaving: each has moved if its write went through and is untouched if not, at most one write goes through, and the loser leaves the winner's listener |
| DeviceTheorems.PortIsFixed | src/main/java/com/outview/service/DeviceLifecycleService.java:36-145 | in every interleaving a device keeps its port until the write of an update or a deletion of its own commits; failed ones included |
| DeviceTheorems.PortSurvivesRestarts | src/main/java/com/outview/service/PortMappingService.java:38-54 | the same over any number of restarts in the middle of anything |
| DeviceTheorems.PresetGrantsIff | src/main/java/com/outview/service/DeviceLifecycleService.java:110-112 | a preset gives the port to the device exactly if the device has none, nobody else has it and the write commits |
| LifecycleService.DeviceLifecycleService.Consistency | src/main/java/com/outview/service/DeviceLifecycleService.java:36-145 | after any calls, one at a time, the three monitors and the ban set are consistent for every device, orphans excluded by proof |
| LifecycleService.DeviceLifecycleService.Register | src/main/java/com/outview/service/DeviceLifecycleService.java:36-75 | succeeds if and only if nothing refuses it; then an online session is on the granted port, the replaced session's channel is closed, unless it is the same, and with it all external connections of the port; otherwise all sessions are as they were; performs the steps of the step system |
| LifecycleService.DeviceLifecycleService.Listen | src/main/java/com/outview/service/DeviceLifecycleService.java:48-51 | reservation, probe and bind; without interference the probed listener is never a foreign one |
| LifecycleService.DeviceLifecycleService.GoOnline | src/main/java/com/outview/service/DeviceLifecycleService.java:52-64 | marks online and re-checks the channel, undoing the bind on failure |
| LifecycleService.DeviceLifecycleService.RetireSession | src/main/java/com/outview/service/DeviceLifecycleService.java:65-69 | if there is a session to replace, all external connections of the port go; the connections of other ports stay |
| LifecycleService.DeviceLifecycleService.DisconnectLocked | src/main/java/com/outview/service/DeviceLifecycleService.java:90-99 | no session is left, and exactly its channel has been closed; without a session nothing happens |
| LifecycleService.DeviceLifecycleService.ChannelInactive | src/main/java/com/outview/service/DeviceLifecycleService.java:77-84 | a channel that is no current session's changes nothing; otherwise that session's device has none afterwards |
| LifecycleService.DeviceLifecycleService.Disconnect | src/main/java/com/outview/service/DeviceLifecycleService.java:86-88 | the device has no session afterwards |
| LifecycleService.DeviceLifecycleService.Ban | src/main/java/com/outview/service/DeviceLifecycleService.java:101-106 | a saved ban leaves no session; a failed one changes nothing |
| LifecycleService.DeviceLifecycleService.Unban | src/main/java/com/outview/service/DeviceLifecycleService.java:108 | only the ban changes, and only if it is saved |
| LifecycleService.DeviceLifecycleService.Preset | src/main/java/com/outview/service/DeviceLifecycleService.java:110-112 | only the reservation changes, as `setFixedPort` decides |
| LifecycleService.DeviceLifecycleService.DeleteMapping | src/main/java/com/outview/service/DeviceLifecycleService.java:114-119 | a completed deletion leaves no reservation, and it completes unless the database write fails |
| LifecycleService.DeviceLifecycleService.UpdatePort | src/main/java/com/outview/service/DeviceLifecycleService.java:121-145 | succeeds if and only if port, bind and write allow it; then reservation and session are on the new port, otherwise both are unchanged |
| ExternalOwnership.StepKeepsInv | src/main/java/com/outview/netty/handler/RawDataHandler.java:56-244 | every step of opening, cleanup, gate, send and close keeps indexes, permits, writes and notices owned |
| ExternalOwnership.EveryRunKeepsOwnership | src/main/java/com/outview/netty/handler/RawDataHandler.java:56-244 | only the owning session's channel writes to a connection, has it closed, by request or with data that does not fit, or is told about it; every client close goes back to such a request; at most one notice per connection and none when the client asked; an idle connection is in all three indexes or, after cleanup, in none, nor in its port's connection table |
| ExternalDelivery.DataIsWrittenIff | src/main/java/com/outview/netty/handler/RawDataHandler.java:177-206 | data that passed the gate is written to its own connection if and only if that is open and the data fits; if and only if it does not fit the connection is closed and cleaned up; nothing else happens |
| ExternalDelivery.DataIsWrittenWithinLimit | src/main/java/com/outview/netty/handler/RawDataHandler.java:187-199 | the byte counter decides: written if and only if it fits into 4 MiB beside everything still counted |
| ExternalDelivery.ConnectionIsClosedIff | src/main/java/com/outview/netty/handler/RawDataHandler.java:154-164 | a close request closes its connection and counts as the client's if and only if that is there, and otherwise drops the ID entry |
| ExternalDelivery.OwnersDataIsWritten | src/main/java/com/outview/netty/handler/RawDataHandler.java:177-213 | with nothing in between, data of the owning channel for an open connection passes the gate and is written if it fits |
| ExternalDelivery.PassAdmitsIff | src/main/java/com/outview/netty/handler/RawDataHandler.java:208-213 | a read of the gate gives a permit, goes on or ends the message, and does nothing else |
| ExternalDelivery.OpensIff | src/main/java/com/outview/netty/handler/RawDataHandler.java:56-75 | a new connection is opened if and only if its device has a session online on a live channel, and is closed otherwise |
| ExternalDelivery.ListedIff | src/main/java/com/outview/service/DataPortService.java:111-119 | the port's table takes it or it is closed |
| ExternalDelivery.AnnouncedIff | src/main/java/com/outview/netty/handler/RawDataHandler.java:80-90 | it is announced if and only if its session is still current and active at the end of its opening; otherwise it is closed and its cleanup, with a notice, has begun |
| ExternalDelivery.OpeningEnds | src/main/java/com/outview/netty/handler/RawDataHandler.java:56-91 | every opening is over after its five steps, whatever interleaves |
| ExternalDelivery.ClosedIsForgotten | src/main/java/com/outview/netty/handler/RawDataHandler.java:227-244 | a closed connection is in no index and no port's table after the five steps of its cleanup, whatever interleaves |
| ExternalDelivery.ClosingCloses | src/main/java/com/outview/service/DataPortService.java:101-109 | closing a port closes exactly its connections |
| ExternalOwnership.GateAdmitsOwnerOnly | src/main/java/com/outview/netty/handler/RawDataHandler.java:208-213 | read by read under any interleaving, the gate lets a message through only for a connection of its own channel's session, current at the last read and active at the one before |
| ExternalOwnership.GateAloneIff | src/main/java/com/outview/netty/handler/RawDataHandler.java:208-213 | with nothing in between, the reads let a message through if and only if the connection's session is active, the channel's and current |
| ExternalOwnership.CleanupNotifiesIff | src/main/java/com/outview/netty/handler/RawDataHandler.java:227-244 | the finishing cleanup notifies if and only if the client did not ask and the session's channel lives, and notifies that channel |
| PendingBytes.AcceptedBytesAreBounded | src/main/java/com/outview/netty/handler/RawDataHandler.java:177-206 | with any number of senders accepted unfinished bytes stay within 4 MiB, and the counter is those bytes plus the rejected ones not yet rolled back |
| PendingBytes.AcceptedIff | src/main/java/com/outview/netty/handler/RawDataHandler.java:187-193 | a send is accepted if and only if it fits beside everything still counted |
| PendingBytes.AllSettled | src/main/java/com/outview/netty/handler/RawDataHandler.java:187-200 | once every write has completed and every rollback is done nothing is counted any more |
| ClientIsolation.StepKeepsInv | client/internal/client/connection.go:27-297 | every step of connecting, reading, failing, creating, finishing, sending and stopping keeps the invariant below |
| ClientIsolation.EveryRunIsolatesGenerations | client/internal/client/connection.go:247-297 | while no failure holds `sessionMu`, every local connection belongs to the current control connection; nothing sent for one generation is written to another |
| ClientIsolation.FailedGenerationsGoQuiet | client/internal/client/connection.go:249-297 | after a generation has failed, at most the one send already past its check is still written to it; it is never current again |
| ClientIsolation.EveryRunShowsTheConnection | client/internal/client/client.go:179-253 | no connection means port 0; a port shown was acknowledged on the current connection; Connected or Registered without a connection only while a Disconnected is yet to be published, and a late one overrides no new connection |
| ClientIsolation.EveryRunKeepsTableAndMemory | client/internal/client/forwarding.go:61-88 | the table stays within its limit, the memory is a queue of at most 1024 distinct IDs, and an ID is in both only while its finisher is pending |
| ClientIsolation.RememberedIdsStayShut | client/internal/client/forwarding.go:61-88 | an ID that has left the table is not opened again while it is remembered |
| ClientIsolation.EntryStaysIff | client/internal/client/forwarding.go:61-216 | a local connection stays what it is under its ID in every step but its own finisher and a sweep, so all that arrives for the ID gets this one |
| ClientIsolation.EntryStaysOverRuns | client/internal/client/forwarding.go:61-216 | the same over runs |
| ClientIsolation.EntryAppearsIff | client/internal/client/forwarding.go:66-87 | a new local connection appears if and only if its ID is neither remembered nor in the table, there is room and its writer starts, and belongs to the generation checked |
| ClientProgress.ConnectsAndRegisters | client/internal/client/connection.go:27-54 | dial, install, read and acknowledgement make a registered client with the acknowledged port, and change nothing else |
| ClientProgress.InstalledIff | client/internal/client/connection.go:38-52 | a dialled connection is installed if and only if the client is not stopped and has none |
| ClientProgress.FailedDialRetries | client/internal/client/connection.go:31-37 | a failed dial shows Disconnected and leaves the loop ready to dial again |
| ClientProgress.HandledIff | client/internal/client/connection.go:226-233 | a message is handled if and only if it was read from the current connection of a client not stopped |
| ClientProgress.LoopReadsOn | client/internal/client/client.go:195-253 | after a refused registration or any other message the loop reads on, on the same connection |
| ClientProgress.PortIsLastAcknowledged | client/internal/client/client.go:238-248 | the port shown is that of the last acknowledgement handled on the connection there is now, 0 before any |
| ClientProgress.StoppedShowsDisconnected | client/internal/client/client.go:179-193 | once stopped the client shows nothing new but Disconnected |
| ClientProgress.FailureClearsUp | client/internal/client/connection.go:272-297 | failing the current connection removes it, its port, all local connections and the memory, and shows Disconnected |
| ClientProgress.ReadFailureClearsUp | client/internal/client/connection.go:163-172 | so does the end of the read loop, after which the loop may dial again |
| ClientProgress.LostLoopOnlyEnds | client/internal/client/connection.go:276-282 | a read loop whose connection was failed by somebody else only ends |
| ClientProgress.WrittenIff | client/internal/client/connection.go:249-265 | a send reaches the wire if and only if it is for the current connection and the client is not stopped |
| ClientProgress.FirstMessageOpens | client/internal/client/forwarding.go:61-88 | the first message for a new ID opens a local connection of the current generation |
| ClientProgress.CreatorPassesIff | client/internal/client/forwarding.go:61-70 | a creator goes on if and only if it has an ID and its connection is still the current one |
| ClientProgress.FinishedLeaves | client/internal/client/forwarding.go:159-169 | a local connection that ends leaves the table and its ID is remembered |
| ClientProgress.ClosedByServerLeaves | client/internal/client/forwarding.go:198-204 | so does one the server closes; without one the ID is only remembered |
| ClientProgress.StopSweepsAll | client/internal/client/connection.go:339-346 | the sweep of `Stop` leaves no local connection |
| ForwardingTable.MemoryIsTheLatest | client/internal/client/forwarding.go:186-196 | after any number of new IDs the memory is the last 1024 of them, in the order they came |
| ForwardingTable.RememberedIff | client/internal/client/forwarding.go:186-196 | an ID is still remembered if and only if fewer than 1024 new ones have come after it |
| ForwardingTable.RecentIdsAreRemembered | client/internal/client/forwarding.go:186-196 | an ID stays remembered while fewer than 1024 come after it |
| ForwardingTable.FinishedIdsAreRemembered | client/internal/client/forwarding.go:159-204 | finishing by identity removes and remembers exactly that ID, once, and a stale entry changes nothing; closing by ID remembers it |
| ForwardingTable.ReserveIff | client/internal/client/forwarding.go:68-87 | a remembered ID is refused, an ID in the table gets the connection it has, a full table remembers the ID, and only a new ID with room and a writer is entered |
| ForwardingTable.CriticalSectionsKeepTable | client/internal/client/forwarding.go:61-204 | reserving, finishing and closing keep the table's limit and the memory a queue |
| ForwardingTable.LocalConnections.GetOrCreate | client/internal/client/forwarding.go:68-87 | an ID in the table gets its own connection back and nothing changes; a new one is entered exactly if it is not remembered, there is room and its writer starts |
| ForwardingTable.LocalConnections.FinishLocal | client/internal/client/forwarding.go:164-169 | removes the entry only if it is the very object, and remembers its ID |
| ForwardingTable.LocalConnections.CloseConnection | client/internal/client/forwarding.go:198-204 | remembers the ID and yields the entry to finish |
| ForwardingTable.LocalConnections.CloseAll | client/internal/client/forwarding.go:206-216 | the sweep takes all entries and leaves table and memory empty |
| LocalQueue.WrittenIsPrefixOfAccepted | client/internal/client/forwarding.go:33-128 | in any interleaving of offers, writes and closing, the socket has received a prefix of the accepted bytes, and `queuedBytes` is what is queued plus the item being written, within the limit |
| LocalQueue.QueuedIff | client/internal/client/forwarding.go:33-58 | data is accepted if and only if the connection is open and both limits leave room beside all pending bytes; then exactly its bytes are pending, otherwise nothing changes |
| LocalQueue.DrainedMeansDelivered | client/internal/client/forwarding.go:111-128 | once the counter is zero and no write has failed, the socket has every accepted byte |
| LocalQueue.NothingIsAcceptedAfterClose | client/internal/client/forwarding.go:38-44 | once the connection is closed nothing more is accepted |
| LocalQueue.WriterTakesInOrder | client/internal/client/forwarding.go:111-126 | the writer takes the oldest item, the socket gets what the write took of it, and it stops exactly after a short or failed write |
| LocalQueue.ConnectionQueue.Forward | client/internal/client/forwarding.go:33-58 | data is queued, dropped when the connection is closed, or refused when it exceeds the byte or the item limit |
| LocalQueue.ConnectionQueue.TakeNext | client/internal/client/forwarding.go:111-115 | takes the oldest item, still counted |
| LocalQueue.ConnectionQueue.Written | client/internal/client/forwarding.go:118-125 | takes the item off the counter; a short or failed write ends the writer |
| Shutdown.NothingBeginsWhileStopping | client/internal/client/connection.go:15-25 | once stopping, no counted task begins |
| Shutdown.StopIsFinal | client/internal/client/connection.go:339-362 | when any `Stop` call has returned, no counted task runs or ever will, in any interleaving of `Start`, `launch` and `Stop` |
| Shutdown.TaskBeginsIff | client/internal/client/connection.go:15-25 | a task begins if and only if nobody is stopping; `Start` besides only once |
| Shutdown.StopReturnsWhenIdle | client/internal/client/connection.go:339-362 | a first `Stop` with no counted task left returns |
| Reconnect.RunConnections | client/internal/client/connection.go:158-207 | the loop, in every world, does what the recursive description does of which the theorems below speak |
| Reconnect.TraceIsDisciplined | client/internal/client/connection.go:158-207 | dials stay within the limit since the last registration and carry its number's delay; giving up comes exactly at the limit and last |
| Reconnect.LoopIsLimited | client/internal/client/connection.go:158-207 | with a limit, at most that many dials per registration and before the first; no base delay above both the configured one and 30 s |
| Reconnect.LoopGoesOn | client/internal/client/connection.go:158-207 | with automatic reconnection the loop dials in every turn until the client is stopped, and ends earlier only by giving up, with a limit |
| Reconnect.UnlimitedLoopNeverEnds | client/internal/client/connection.go:173-199 | without a limit, and not stopped, it dials in every turn there is |
| Reconnect.GivesUpAtLimitOnly | client/internal/client/connection.go:176-181 | it gives up only after exactly the allowed dials since the last registration |
| Reconnect.BaseDelayDoubles | client/internal/client/connection.go:202-205 | the delay is the configured one doubled per dial, with 30 s as its ceiling |
| WireFormat.DecodesIff | client/internal/protocol/decoder.go:63-103 | decoding undoes encoding if and only if the header's length is the body's |
| WireFormat.ReencodingRestoresBytes | client/internal/protocol/encoder.go:27-72 | a decoded frame encodes to the bytes it came from |
| WireFormat.VerdictIsStable | client/internal/protocol/decoder.go:63-103 | further bytes change no verdict except that of an incomplete frame |
| WireFormat.HeaderLayout | client/internal/protocol/encoder.go:27-72 | the header on the wire is magic number, version, type, length and reserved field, big-endian in two's complement |
| WireFormat.FrameIff | client/internal/protocol/decoder.go:63-103 | bytes start with a frame if and only if they start with the encoding of a well-formed message |
| WireFormat.RefusedIff | client/internal/protocol/decoder.go:63-103 | a header is refused if and only if no further bytes could make a frame of it |
| WireFormat.BadMagicIff | client/internal/protocol/decoder.go:63-103 | which refusal it is: the magic number is read first, then the length |
| WireFormat.FramesContinue | client/internal/protocol/decoder.go:63-103 | decoding may stop anywhere and go on with the rest |
| WireFormat.ListRoundTrips | client/internal/protocol/encoder.go:27-72 | the bytes of a list of well-formed messages decode to exactly that list |
| WireFormat.FramesAccountForAllBytes | client/internal/protocol/decoder.go:63-103 | every byte string is the encoding of the messages decoded from it and an undecoded rest |
| GoCodec.EncodeToBytes | client/internal/protocol/encoder.go:75-96 | header, then the body cut or padded to the header's length; no result for a negative length |
| GoCodec.EncodersAgreeIff | client/internal/protocol/encoder.go:27-96 | the buffer encoder and the stream encoders agree if and only if the header's length is the body's |
| GoCodec.Encoder.Encode | client/internal/protocol/encoder.go:27-72 | appends the encoding, or refuses the header and writes nothing |
| GoCodec.Decoder.ReadFull | client/internal/protocol/decoder.go:21-24 | reads exactly what is asked for if it is there, however it is delivered |
| GoCodec.Decoder.Decode | client/internal/protocol/decoder.go:20-59 | the verdict of the one-shot decoder on all that is to come, taking off exactly the frame |
| GoCodec.ReadAll | client/internal/client/connection.go:215-237 | a read loop sees exactly the frames of the stream, for any deliveries |
| JavaCodec.Encode | src/main/java/com/outview/protocol/codec/MessageEncoder.java:19-41 | appends header fields and body unchecked, hence the bytes of the Go stream encoder wherever that accepts the header; nothing for no message |
| JavaCodec.MessageDecoder.DecodeOne | src/main/java/com/outview/protocol/codec/MessageDecoder.java:21-88 | mark, read ahead and reset agree with the one-shot Go decoder on the readable bytes |
| JavaCodec.MessageDecoder.ChannelRead | src/main/java/com/outview/protocol/codec/MessageDecoder.java:21-88 | after any deliveries the output is exactly the frames of all bytes received up to the first bad header, at which the channel closes |
| JavaCodec.DecodeChunks | src/main/java/com/outview/protocol/codec/MessageDecoder.java:21-88 | any split of the bytes of well-formed messages decodes to those messages |
| DataPackets.PacketRoundTripsIff | client/internal/protocol/message.go:134-168 | a packet parses to its ID and payload if and only if the ID has at most 65535 bytes |
| DataPackets.ParsedPacketsAreCanonical | client/internal/protocol/message.go:157-168 | a parsed packet rebuilds to its bytes; what does not parse is no packet with an ID that fits |
| DataPackets.DataArrivesIff | src/main/java/com/outview/protocol/ProtocolMessage.java:52-85 | build, encode, decode and parse deliver ID, payload and all header fields if and only if the ID fits its length field and the body a frame |
| DataPackets.CloseArrivesIff | src/main/java/com/outview/protocol/ProtocolMessage.java:90-99 | the ID of a close notification arrives if and only if it fits its length field and the frame, whose length may have wrapped around, still covers it; every frame that arrives has the type it was built with |
| DataPackets.CloseNotificationArrivesIff | client/internal/protocol/message.go:366-381 | a close notification arrives as a frame of the close type with its ID, which the Go client parses and the Java data parser refuses, if and only if the ID fits its length field |
| DataPackets.PacketLayout | client/internal/protocol/message.go:131-139 | the ID's length in two big-endian bytes, the ID, the payload |
| DataPackets.NewDataMessage | client/internal/protocol/message.go:134-150 | the body filled in place is the packet, under a data header with its narrowed length |
| DataPackets.NewCloseConnectionMessage | client/internal/protocol/message.go:366-381 | the body filled in place is the packet without payload, under a header of the close type |
| DataPackets.DataWithConnectionId | src/main/java/com/outview/protocol/ProtocolMessage.java:52-63 | the same message as the Go builder, or none when an array would be too long |
| IceBuffer.EveryRunConservesCandidates | client/internal/webrtc/manager.go:197-254 | with any number of concurrent calls each added candidate is in exactly one place, and the buffer is empty while the flag is up |
| IceBuffer.OrderedThroughoutIff | client/internal/webrtc/manager.go:197-233 | a run of different candidates keeps arrival order throughout if and only if every rejection and every hand-over met a condition on what the other setters hold |
| IceBuffer.RejectedOrderIff | client/internal/webrtc/manager.go:214-221 | a rejected setter keeps the order if and only if it holds nothing or no later setter does |
| IceBuffer.FlushOrderIff | client/internal/webrtc/manager.go:225-230 | a hand-over keeps the order if and only if no earlier setter holds anything |
| IceBuffer.OneSetterFlushesInOrder | webrtc-sidecar/internal/webrtc/manager.go:218-290 | setters that do not overlap meet the condition, so candidates are flushed in arrival order, however often setting the description failed |
| IceBuffer.OverlappingSettersReorder | client/internal/webrtc/manager.go:214-230 | a run with overlapping setters that hands any two different candidates over in reverse order |
| IceBuffer.SetterRuns | client/internal/webrtc/manager.go:197-233 | an undisturbed setter flushes all, in order, or restores all |
| IceBuffer.Manager.AddICECandidate | client/internal/webrtc/manager.go:236-254 | buffers before the description, hands over after it; fails without a peer connection or when that refuses the candidate |
| IceBuffer.Manager.SetRemoteDescription | webrtc-sidecar/internal/webrtc/manager.go:218-257 | hands over exactly the buffered candidates on success and restores them on failure |
| BatchSender.EveryRunConservesBytes | client/internal/webrtc/pool.go:109-161 | flushed payloads and pending bytes are together the bytes sent, in order; pending stays below both thresholds |
| BatchSender.FlushDeliversAll | client/internal/webrtc/pool.go:140-153 | after a final flush the payloads are all bytes sent |
| BatchSender.FlushesIff | client/internal/webrtc/pool.go:109-137 | after any calls a message makes the sender flush if and only if bytes, messages or the time since the batch began reach their limit; then the batch with it is the payload |
| BatchSender.DeadlineIsOfTheFirst | client/internal/webrtc/pool.go:116-118 | the deadline is one interval after the first message of the pending batch |
| BatchSender.Sender.Send | client/internal/webrtc/pool.go:109-137 | appends, and dispatches when size, count or deadline says so, with its counters exact |
| BatchSender.Sender.FlushPending | client/internal/webrtc/pool.go:140-153 | dispatches what is pending, nothing when idle |
| BufferPool.EveryRunKeepsBuffersApart | client/internal/webrtc/pool.go:29-161 | under concurrency no buffer is pending, leaving, pooled or lent at once, a leaving buffer keeps the taken bytes, and taken and pending bytes are all sent in lock order |
| BufferPool.EveryRunBoundsThePool | client/internal/webrtc/pool.go:38-46 | no buffer without room or above 1 MiB is ever pooled |
| BufferPool.StepKeepsInv | client/internal/webrtc/pool.go:29-161 | every step of senders, dispatches and other pool users keeps that |
| BufferPool.BorrowedHasRoom | client/internal/webrtc/pool.go:29-36 | a borrower gets an empty buffer of at least the capacity asked for, the pooled one whenever that is large enough |
| BufferPool.PooledIff | client/internal/webrtc/pool.go:38-46 | a buffer that comes back is pooled if and only if it has room, and at most 1 MiB |
| BufferPool.TakenIff | client/internal/webrtc/pool.go:109-137 | a message makes the sender take the batch if and only if it reaches a threshold or is due |
| BufferPool.FlushTakesPending | client/internal/webrtc/pool.go:140-153 | a flush takes what is pending and nothing when idle |
| BufferPool.EveryRunKeepsRoom | client/internal/webrtc/pool.go:97-153 | the pending buffer always has room for a whole batch |

## Left out

- UpdatePortIsAllOrNothing: excludes the states in which AllOrNothingIff shows that it fails.
- OrderedThroughoutIff: order is that of all candidates, flushed, held and buffered; a run that has left it may still happen to flush in arrival order.
- LifecycleService: one operation at a time; interleavings are those of the step system. Registration acknowledgements are not sent.
- The external-connection handler and the control-connection generations exist as step systems on values, not as classes: their point is the interleaving of single map operations, which methods cannot be interrupted for.
- DataPackets: IDs are bytes; the UTF-8 conversion of Java and Go strings is not modelled.
- MessageDecoder.ChannelRead: nothing is said about bytes after a refused header, where the original has already moved its reader index.
- Device-ID and token checks, JSON bodies, timestamps, heartbeats and the status refresh they cause.
- Lost close notifications: the one-slot overload signal may still hold an older generation's entry, so no claim is made across generations.
- The WebRTC state machine: its closed state is not absorbing in the original, and its transition table is finite.
- The random factor on the reconnect delay, and the wrap-around of 64-bit counters.
- Real sockets, TLS, Netty pipelines, the peer-connection library, database and web framework, administration pages, GUI, metrics, installer.
