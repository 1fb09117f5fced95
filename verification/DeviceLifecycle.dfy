/** The device lifecycle as a step system.  Every operation of `DeviceLifecycleService` is a
    sequence of calls into the monitors of Reservations, Sessions and Listeners while it holds
    its device's lock; `tasks[d]` is the program counter of the operation holding the lock of
    `d`, and `d !in tasks` means the lock is free.  Steps of different devices interleave
    freely, any database write or port bind may fail, and a control channel may die at any time.

    Environment: a dead channel stays dead; registrations of one channel never overlap, because
    they run on that channel's executor; a listener closes only when it is stopped. */
module DeviceLifecycle {
  import opened Wrappers
  import opened Reservations
  import opened Sessions
  import opened Listeners

  /** What an operation that first disconnects does next. */
  datatype Next = Finish | ReleaseReservation

  /** `previouslyActive` is the flag the registration reads before binding; `foreign` records
      that the listener it saw belonged to another device. */
  datatype Probe = Probe(previouslyActive: bool, foreign: bool)

  /** `register(d, c, target)`: one point before each call. */
  datatype RegisterPoint =
    | CheckActive(target: int)
    | CheckOwner(target: int)
    | CheckBan(target: int)
    | AllocatePort(target: int)
    | ProbePort(target: int, p: Port)
    | BindPort(target: int, p: Port, probe: Probe)
    | SetOnline(target: int, p: Port, probe: Probe)
    | CheckAgain(p: Port, probe: Probe)
    | UndoPort(p: Port, markedOnline: bool)
    | UndoOnline
    | RetireOld(p: Port)
    | Install(p: Port)

  /** `disconnectLocked` and the callers that go on from it; `c` and `p` are the channel and
      port of the session being dropped. */
  datatype DropPoint =
    | SaveBan
    | ReadSession(next: Next)
    | RemoveSession(c: Channel, p: Port, next: Next)
    | StopListener(c: Channel, p: Port, next: Next)
    | SetOffline(c: Channel, next: Next)
    | CloseChannel(c: Channel, next: Next)
    | ReleaseRow

  /** `updatePort(d, p)`; `was` is the port it read first. */
  datatype UpdatePoint =
    | ReadPort(p: Port)
    | CheckReserved(was: Port, p: Port)
    | ReadOnline(was: Port, p: Port)
    | BindNew(was: Port, p: Port, session: Option<SessionRef>, online: bool)
    | SavePort(was: Port, p: Port, session: Option<SessionRef>, online: bool)
    | UndoBind(was: Port, p: Port)
    | MoveSession(was: Port, p: Port, session: Option<SessionRef>, online: bool)
    | StopOld(was: Port, p: Port, online: bool)

  datatype Task = Register(c: Channel, register: RegisterPoint) | Drop(drop: DropPoint) | Update(update: UpdatePoint)

  /** `orphaned` is history: the devices whose registration was abandoned, without a session,
      after it had bound a listener in place of another device's. */
  datatype Server = Server(
    reservations: Store,
    sessions: SessionTables,
    owners: Owners,
    banned: set<Device>,
    dead: set<Channel>,
    tasks: map<Device, Task>,
    orphaned: set<Device>)

  datatype Label =
    | BeginRegister(d: Device, c: Channel, target: int)
    | Disconnected(observed: SessionRef)
    | BeginDisconnect(d: Device)
    | BeginBan(d: Device)
    | Unban(d: Device, ok: bool)
    | Preset(d: Device, p: Port, target: int, ok: bool)
    | BeginDelete(d: Device)
    | BeginUpdate(d: Device, p: Port)
    | ChannelDies(c: Channel)
    | Advance(d: Device, ok: bool, ref: SessionRef)

  /** The state right after start-up: reservations loaded, nobody connected. */
  function Started(repository: Table, banned: set<Device>): Server {
    Server(Store(Loaded(repository), repository), SessionTables(map[], map[], map[]), map[], banned, {}, map[], {})
  }

  function RowOf(s: Server, d: Device): Option<Reservation> {
    if d in s.reservations.cache then Some(s.reservations.cache[d]) else None
  }

  function SessionOf(s: Server, d: Device): Option<ClientSession> {
    if HasSession(s.sessions, d) then Some(Current(s.sessions, d)) else None
  }

  function RefOf(s: Server, d: Device): Option<SessionRef> {
    if HasSession(s.sessions, d) then Some(s.sessions.sessionMap[d]) else None
  }

  function Unlock(s: Server, d: Device): Server { s.(tasks := s.tasks - {d}) }

  function Goto(s: Server, d: Device, t: Task): Server { s.(tasks := s.tasks[d := t]) }

  function Continue(s: Server, d: Device, next: Next): Server {
    if next.Finish? then Unlock(s, d) else Goto(s, d, Drop(ReleaseRow))
  }

  /** `setStatus` on the current session of `d`, if it has one. */
  function SetStatus(s: Server, d: Device, status: Status): Server {
    if !HasSession(s.sessions, d) then s
    else s.(sessions := s.sessions.(objects :=
              s.sessions.objects[s.sessions.sessionMap[d] := Current(s.sessions, d).(status := status)]))
  }

  /** `setExternalPort` on a session object the caller holds. */
  function SetPort(s: Server, session: Option<SessionRef>, p: Port): Server {
    if session.None? || session.value !in s.sessions.objects then s
    else s.(sessions := s.sessions.(objects :=
              s.sessions.objects[session.value := s.sessions.objects[session.value].(externalPort := p)]))
  }

  predicate Registers(t: Task, c: Channel) { t.Register? && t.c == c }

  predicate Registering(s: Server, c: Channel) {
    exists d | d in s.tasks :: Registers(s.tasks[d], c)
  }

  /** A registration that fails after its bind but leaves the listener, trusting the flag. */
  function Abandon(s: Server, d: Device, probe: Probe): Server {
    Unlock(s, d).(orphaned := s.orphaned + if probe.foreign && SessionOf(s, d).None? then {d} else {})
  }

  function StepRegister(range: Range, s: Server, d: Device, c: Channel, at: RegisterPoint, ok: bool,
        ref: SessionRef): Server {
    match at
    case CheckActive(target) =>
      if c in s.dead then Unlock(s, d) else Goto(s, d, Register(c, CheckOwner(target)))
    case CheckOwner(target) =>
      var found := SessionByChannel(s.sessions, c);
      if found.Some? && found.value in s.sessions.objects
        && s.sessions.objects[found.value].deviceId != d then Unlock(s, d)
      else Goto(s, d, Register(c, CheckBan(target)))
    case CheckBan(target) =>
      if d in s.banned then Unlock(s, d) else Goto(s, d, Register(c, AllocatePort(target)))
    case AllocatePort(target) =>
      var (store, reply) := Allocate(range, s.reservations, d, target, ok);
      var s' := s.(reservations := store);
      if reply.Granted? then Goto(s', d, Register(c, ProbePort(target, reply.port))) else Unlock(s', d)
    case ProbePort(target, p) =>
      Goto(s, d, Register(c, BindPort(target, p, Probe(p in s.owners, p in s.owners && s.owners[p] != d))))
    case BindPort(target, p, probe) =>
      var (owners, started) := StartPort(s.owners, p, d, ok);
      var s' := s.(owners := owners);
      if started then Goto(s', d, Register(c, SetOnline(target, p, probe))) else Unlock(s', d)
    case SetOnline(target, p, probe) =>
      var (store, reply) := MarkOnline(s.reservations, d, target, ok);
      var s' := s.(reservations := store);
      if reply.Done? then Goto(s', d, Register(c, CheckAgain(p, probe)))
      else if probe.previouslyActive then Abandon(s', d, probe)
      else Goto(s', d, Register(c, UndoPort(p, false)))
    case CheckAgain(p, probe) =>
      if c !in s.dead then Goto(s, d, Register(c, RetireOld(p)))
      else if probe.previouslyActive then Abandon(s, d, probe)
      else Goto(s, d, Register(c, UndoPort(p, true)))
    case UndoPort(p, markedOnline) =>
      var s' := s.(owners := StopPort(s.owners, p, d));
      if markedOnline then Goto(s', d, Register(c, UndoOnline)) else Unlock(s', d)
    case UndoOnline =>
      Unlock(s.(reservations := MarkOffline(s.reservations, d)), d)
    case RetireOld(p) =>
      Goto(SetStatus(s, d, OFFLINE), d, Register(c, Install(p)))
    case Install(p) =>
      if ref in s.sessions.objects then s
      else Unlock(s.(sessions := RegisterSession(s.sessions, ref, d, c, p),
                     dead := s.dead + Superseded(s.sessions, d, c)), d)
  }

  function StepDrop(s: Server, d: Device, at: DropPoint, ok: bool): Server {
    match at
    case SaveBan =>
      if ok then Goto(s.(banned := s.banned + {d}), d, Drop(ReadSession(Finish))) else Unlock(s, d)
    case ReadSession(next) =>
      var session := SessionOf(s, d);
      if session.Some? then Goto(s, d, Drop(RemoveSession(session.value.channel, session.value.externalPort, next)))
      else Continue(s, d, next)
    case RemoveSession(c, p, next) =>
      Goto(s.(sessions := RemoveByChannel(s.sessions, c)), d, Drop(StopListener(c, p, next)))
    case StopListener(c, p, next) =>
      Goto(s.(owners := StopPort(s.owners, p, d)), d, Drop(SetOffline(c, next)))
    case SetOffline(c, next) =>
      Goto(s.(reservations := MarkOffline(s.reservations, d)), d, Drop(CloseChannel(c, next)))
    case CloseChannel(c, next) =>
      Continue(s.(dead := s.dead + {c}), d, next)
    case ReleaseRow =>
      Unlock(s.(reservations := Release(s.reservations, d, ok).0), d)
  }

  function StepUpdate(range: Range, s: Server, d: Device, at: UpdatePoint, ok: bool): Server {
    match at
    case ReadPort(p) =>
      var row := RowOf(s, d);
      if !range.Contains(p) || row.None? || row.value.externalPort == p then Unlock(s, d)
      else Goto(s, d, Update(CheckReserved(row.value.externalPort, p)))
    case CheckReserved(was, p) =>
      if Reserved(s.reservations.cache, p) then Unlock(s, d) else Goto(s, d, Update(ReadOnline(was, p)))
    case ReadOnline(was, p) =>
      var session := SessionOf(s, d);
      var online := session.Some? && session.value.channel !in s.dead && session.value.status.ONLINE?;
      Goto(s, d, Update(BindNew(was, p, RefOf(s, d), online)))
    case BindNew(was, p, session, online) =>
      var (owners, started) := if online then StartPort(s.owners, p, d, ok) else (s.owners, true);
      var s' := s.(owners := owners);
      if started then Goto(s', d, Update(SavePort(was, p, session, online))) else Unlock(s', d)
    case SavePort(was, p, session, online) =>
      var (store, reply) := UpdateExternalPort(range, s.reservations, d, p, ok);
      var s' := s.(reservations := store);
      if reply.Granted? then Goto(s', d, Update(MoveSession(was, p, session, online)))
      else if online then Goto(s', d, Update(UndoBind(was, p)))
      else Unlock(s', d)
    case UndoBind(was, p) =>
      Unlock(s.(owners := StopPort(s.owners, p, d)), d)
    case MoveSession(was, p, session, online) =>
      Goto(SetPort(s, session, p), d, Update(StopOld(was, p, online)))
    case StopOld(was, p, online) =>
      Unlock(s.(owners := StopPort(s.owners, was, d)), d)
  }

  function StepTask(range: Range, s: Server, d: Device, t: Task, ok: bool, ref: SessionRef): Server {
    match t
    case Register(c, at) => StepRegister(range, s, d, c, at, ok, ref)
    case Drop(at) => StepDrop(s, d, at, ok)
    case Update(at) => StepUpdate(range, s, d, at, ok)
  }

  /** One atomic step; a label that is not enabled leaves the state as it is. */
  function Step(range: Range, s: Server, l: Label): Server {
    match l
    case BeginRegister(d, c, target) =>
      if d in s.tasks || !ValidTarget(target) || Registering(s, c) then s
      else Goto(s, d, Register(c, CheckActive(target)))
    case Disconnected(observed) =>
      // The inactive event read `observed` earlier; only now does it get the device's lock.
      if observed !in s.sessions.objects then s
      else
        var session := s.sessions.objects[observed];
        if session.deviceId in s.tasks || SessionByChannel(s.sessions, session.channel) != Some(observed) then s
        else Goto(s, session.deviceId, Drop(ReadSession(Finish)))
    case BeginDisconnect(d) => if d in s.tasks then s else Goto(s, d, Drop(ReadSession(Finish)))
    case BeginBan(d) => if d in s.tasks then s else Goto(s, d, Drop(SaveBan))
    case Unban(d, ok) => if d in s.tasks || !ok then s else s.(banned := s.banned - {d})
    case Preset(d, p, target, ok) =>
      if d in s.tasks then s else s.(reservations := SetFixedPort(range, s.reservations, d, p, target, ok).0)
    case BeginDelete(d) => if d in s.tasks then s else Goto(s, d, Drop(ReadSession(ReleaseReservation)))
    case BeginUpdate(d, p) => if d in s.tasks then s else Goto(s, d, Update(ReadPort(p)))
    case ChannelDies(c) => s.(dead := s.dead + {c})
    case Advance(d, ok, ref) => if d !in s.tasks then s else StepTask(range, s, d, s.tasks[d], ok, ref)
  }

  function Run(range: Range, s: Server, labels: seq<Label>): Server
    decreases |labels|
  {
    if labels == [] then s else Run(range, Step(range, s, labels[0]), labels[1..])
  }
}
