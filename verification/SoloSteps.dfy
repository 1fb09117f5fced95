/** What each step of DeviceLifecycle.dfy does when one operation runs alone: the whole next
    state, with the step function folded away. */
module SoloSteps {
  import opened Wrappers
  import opened Reservations
  import opened Sessions
  import opened Listeners
  import opened DeviceLifecycle

  function Solo(d: Device, t: Task): map<Device, Task> { map[d := t] }

  function AfterDrop(d: Device, next: Next): map<Device, Task> {
    if next.Finish? then map[] else Solo(d, Drop(ReleaseRow))
  }

  predicate RegisterAt(s: Server, d: Device, c: Channel, at: RegisterPoint) { s.tasks == Solo(d, Task.Register(c, at)) }

  predicate DropAt(s: Server, d: Device, at: DropPoint) { s.tasks == Solo(d, Drop(at)) }

  predicate UpdateAt(s: Server, d: Device, at: UpdatePoint) { s.tasks == Solo(d, Update(at)) }

  // ---------- beginnings ----------

  lemma Begins(range: Range, s: Server, d: Device, c: Channel, target: int, p: Port)
    requires s.tasks == map[]
    ensures Step(range, s, BeginRegister(d, c, target)) ==
      if ValidTarget(target) then s.(tasks := Solo(d, Task.Register(c, CheckActive(target)))) else s
    ensures Step(range, s, BeginDisconnect(d)) == s.(tasks := Solo(d, Drop(ReadSession(Finish))))
    ensures Step(range, s, BeginBan(d)) == s.(tasks := Solo(d, Drop(SaveBan)))
    ensures Step(range, s, BeginDelete(d)) == s.(tasks := Solo(d, Drop(ReadSession(ReleaseReservation))))
    ensures Step(range, s, BeginUpdate(d, p)) == s.(tasks := Solo(d, Update(ReadPort(p))))
  {
  }

  lemma BeginsDisconnected(range: Range, s: Server, ref: SessionRef)
    requires s.tasks == map[] && ref in s.sessions.objects
    requires SessionByChannel(s.sessions, s.sessions.objects[ref].channel) == Some(ref)
    ensures Step(range, s, Disconnected(ref)) ==
      s.(tasks := Solo(s.sessions.objects[ref].deviceId, Drop(ReadSession(Finish))))
  {
  }

  // ---------- register ----------

  lemma ChecksActive(range: Range, s: Server, d: Device, c: Channel, target: int)
    requires RegisterAt(s, d, c, CheckActive(target))
    ensures Step(range, s, Advance(d, true, 0)) ==
      s.(tasks := if c in s.dead then map[] else Solo(d, Task.Register(c, CheckOwner(target))))
  {
  }

  lemma ChecksOwner(range: Range, s: Server, d: Device, c: Channel, target: int)
    requires RegisterAt(s, d, c, CheckOwner(target))
    ensures Step(range, s, Advance(d, true, 0)) ==
      var found := SessionByChannel(s.sessions, c);
      var known := found.Some? && found.value in s.sessions.objects;
      s.(tasks := if known && s.sessions.objects[found.value].deviceId != d then map[]
                  else Solo(d, Task.Register(c, CheckBan(target))))
  {
  }

  lemma ChecksBan(range: Range, s: Server, d: Device, c: Channel, target: int)
    requires RegisterAt(s, d, c, CheckBan(target))
    ensures Step(range, s, Advance(d, true, 0)) ==
      s.(tasks := if d in s.banned then map[] else Solo(d, Task.Register(c, AllocatePort(target))))
  {
  }

  lemma Allocates(range: Range, s: Server, d: Device, c: Channel, target: int, saved: bool)
    requires RegisterAt(s, d, c, AllocatePort(target))
    ensures Step(range, s, Advance(d, saved, 0)) ==
      var (store, reply) := Allocate(range, s.reservations, d, target, saved);
      s.(reservations := store,
         tasks := if reply.Granted? then Solo(d, Task.Register(c, ProbePort(target, reply.port))) else map[])
  {
  }

  lemma Probes(range: Range, s: Server, d: Device, c: Channel, target: int, p: Port)
    requires RegisterAt(s, d, c, ProbePort(target, p))
    ensures Step(range, s, Advance(d, true, 0)) ==
      var probe := Probe(p in s.owners, p in s.owners && s.owners[p] != d);
      s.(tasks := Solo(d, Task.Register(c, BindPort(target, p, probe))))
  {
  }

  lemma Binds(range: Range, s: Server, d: Device, c: Channel, target: int, p: Port, probe: Probe, bound: bool)
    requires RegisterAt(s, d, c, BindPort(target, p, probe))
    ensures Step(range, s, Advance(d, bound, 0)) ==
      var (owners, started) := StartPort(s.owners, p, d, bound);
      s.(owners := owners, tasks := if started then Solo(d, Task.Register(c, SetOnline(target, p, probe))) else map[])
  {
  }

  /** An operation that has no foreign listener to trust abandons nothing. */
  function AfterFailure(d: Device, c: Channel, p: Port, previouslyActive: bool, markedOnline: bool): map<Device, Task> {
    if previouslyActive then map[] else Solo(d, Task.Register(c, UndoPort(p, markedOnline)))
  }

  lemma SetsOnline(range: Range, s: Server, d: Device, c: Channel, target: int, p: Port, active: bool, committed: bool)
    requires RegisterAt(s, d, c, SetOnline(target, p, Probe(active, false)))
    ensures Step(range, s, Advance(d, committed, 0)) ==
      var (store, reply) := MarkOnline(s.reservations, d, target, committed);
      s.(reservations := store,
         tasks := if reply.Done? then Solo(d, Task.Register(c, CheckAgain(p, Probe(active, false))))
           else AfterFailure(d, c, p, active, false))
  {
    assert s.orphaned + {} == s.orphaned;
  }

  lemma ChecksAgain(range: Range, s: Server, d: Device, c: Channel, p: Port, active: bool)
    requires RegisterAt(s, d, c, CheckAgain(p, Probe(active, false)))
    ensures Step(range, s, Advance(d, true, 0)) ==
      s.(tasks := if c !in s.dead then Solo(d, Task.Register(c, RetireOld(p))) else AfterFailure(d, c, p, active, true))
  {
    assert s.orphaned + {} == s.orphaned;
  }

  lemma UndoesPort(range: Range, s: Server, d: Device, c: Channel, p: Port, markedOnline: bool)
    requires RegisterAt(s, d, c, UndoPort(p, markedOnline))
    ensures Step(range, s, Advance(d, true, 0)) ==
      s.(owners := StopPort(s.owners, p, d),
         tasks := if markedOnline then Solo(d, Task.Register(c, UndoOnline)) else map[])
  {
  }

  lemma UndoesOnline(range: Range, s: Server, d: Device, c: Channel)
    requires RegisterAt(s, d, c, UndoOnline)
    ensures Step(range, s, Advance(d, true, 0)) == s.(reservations := MarkOffline(s.reservations, d), tasks := map[])
  {
  }

  lemma RetiresOld(range: Range, s: Server, d: Device, c: Channel, p: Port)
    requires RegisterAt(s, d, c, RetireOld(p))
    ensures Step(range, s, Advance(d, true, 0)) ==
      DeviceLifecycle.SetStatus(s, d, OFFLINE).(tasks := Solo(d, Task.Register(c, Install(p))))
  {
  }

  lemma Installs(range: Range, s: Server, d: Device, c: Channel, p: Port, ref: SessionRef)
    requires RegisterAt(s, d, c, Install(p)) && ref !in s.sessions.objects
    ensures Step(range, s, Advance(d, true, ref)) ==
      s.(sessions := RegisterSession(s.sessions, ref, d, c, p),
         dead := s.dead + Superseded(s.sessions, d, c), tasks := map[])
  {
  }

  // ---------- disconnecting ----------

  lemma Bans(range: Range, s: Server, d: Device, saved: bool)
    requires DropAt(s, d, SaveBan)
    ensures Step(range, s, Advance(d, saved, 0)) ==
      if saved then s.(banned := s.banned + {d}, tasks := Solo(d, Drop(ReadSession(Finish)))) else s.(tasks := map[])
  {
  }

  lemma ReadsSession(range: Range, s: Server, d: Device, next: Next)
    requires DropAt(s, d, ReadSession(next))
    ensures Step(range, s, Advance(d, true, 0)) ==
      var session := SessionOf(s, d);
      s.(tasks := if session.Some?
        then Solo(d, Drop(RemoveSession(session.value.channel, session.value.externalPort, next)))
                  else AfterDrop(d, next))
  {
  }

  lemma RemovesSession(range: Range, s: Server, d: Device, c: Channel, p: Port, next: Next)
    requires DropAt(s, d, RemoveSession(c, p, next))
    ensures Step(range, s, Advance(d, true, 0)) ==
      s.(sessions := RemoveByChannel(s.sessions, c), tasks := Solo(d, Drop(StopListener(c, p, next))))
  {
  }

  lemma StopsListener(range: Range, s: Server, d: Device, c: Channel, p: Port, next: Next)
    requires DropAt(s, d, StopListener(c, p, next))
    ensures Step(range, s, Advance(d, true, 0)) ==
      s.(owners := StopPort(s.owners, p, d), tasks := Solo(d, Drop(SetOffline(c, next))))
  {
  }

  lemma SetsOffline(range: Range, s: Server, d: Device, c: Channel, next: Next)
    requires DropAt(s, d, SetOffline(c, next))
    ensures Step(range, s, Advance(d, true, 0)) ==
      s.(reservations := MarkOffline(s.reservations, d), tasks := Solo(d, Drop(CloseChannel(c, next))))
  {
  }

  lemma ClosesChannel(range: Range, s: Server, d: Device, c: Channel, next: Next)
    requires DropAt(s, d, CloseChannel(c, next))
    ensures Step(range, s, Advance(d, true, 0)) == s.(dead := s.dead + {c}, tasks := AfterDrop(d, next))
  {
  }

  lemma Releases(range: Range, s: Server, d: Device, committed: bool)
    requires DropAt(s, d, ReleaseRow)
    ensures Step(range, s, Advance(d, committed, 0)) ==
      s.(reservations := Release(s.reservations, d, committed).0, tasks := map[])
  {
  }

  // ---------- updating a port ----------

  /** `isActive` of the device's session. */
  predicate IsOnline(s: Server, d: Device) {
    SessionOf(s, d).Some? && SessionOf(s, d).value.channel !in s.dead && SessionOf(s, d).value.status.ONLINE?
  }

  lemma ReadsPort(range: Range, s: Server, d: Device, p: Port)
    requires UpdateAt(s, d, ReadPort(p))
    ensures Step(range, s, Advance(d, true, 0)) ==
      var row := RowOf(s, d);
      s.(tasks := if !range.Contains(p) || row.None? || row.value.externalPort == p then map[]
                  else Solo(d, Update(CheckReserved(row.value.externalPort, p))))
  {
  }

  lemma ChecksReserved(range: Range, s: Server, d: Device, was: Port, p: Port)
    requires UpdateAt(s, d, CheckReserved(was, p))
    ensures Step(range, s, Advance(d, true, 0)) ==
      s.(tasks := if Reserved(s.reservations.cache, p) then map[] else Solo(d, Update(ReadOnline(was, p))))
  {
  }

  lemma ReadsOnline(range: Range, s: Server, d: Device, was: Port, p: Port)
    requires UpdateAt(s, d, ReadOnline(was, p))
    ensures Step(range, s, Advance(d, true, 0)) ==
      s.(tasks := Solo(d, Update(BindNew(was, p, RefOf(s, d), IsOnline(s, d)))))
  {
  }

  lemma BindsNew(range: Range, s: Server, d: Device, was: Port, p: Port, session: Option<SessionRef>, online: bool,
        bound: bool)
    requires UpdateAt(s, d, BindNew(was, p, session, online))
    ensures Step(range, s, Advance(d, bound, 0)) ==
      var (owners, started) := if online then StartPort(s.owners, p, d, bound) else (s.owners, true);
      s.(owners := owners, tasks := if started then Solo(d, Update(SavePort(was, p, session, online))) else map[])
  {
  }

  lemma SavesPort(range: Range, s: Server, d: Device, was: Port, p: Port, session: Option<SessionRef>, online: bool,
        committed: bool)
    requires UpdateAt(s, d, SavePort(was, p, session, online))
    ensures Step(range, s, Advance(d, committed, 0)) ==
      var (store, reply) := UpdateExternalPort(range, s.reservations, d, p, committed);
      s.(reservations := store,
         tasks := if reply.Granted? then Solo(d, Update(MoveSession(was, p, session, online)))
                  else if online then Solo(d, Update(UndoBind(was, p))) else map[])
  {
  }

  lemma UndoesBind(range: Range, s: Server, d: Device, was: Port, p: Port)
    requires UpdateAt(s, d, UndoBind(was, p))
    ensures Step(range, s, Advance(d, true, 0)) == s.(owners := StopPort(s.owners, p, d), tasks := map[])
  {
  }

  lemma MovesSession(range: Range, s: Server, d: Device, was: Port, p: Port, session: Option<SessionRef>, online: bool)
    requires UpdateAt(s, d, MoveSession(was, p, session, online))
    ensures Step(range, s, Advance(d, true, 0)) ==
      SetPort(s, session, p).(tasks := Solo(d, Update(StopOld(was, p, online))))
  {
  }

  lemma StopsOld(range: Range, s: Server, d: Device, was: Port, p: Port, online: bool)
    requires UpdateAt(s, d, StopOld(was, p, online))
    ensures Step(range, s, Advance(d, true, 0)) == s.(owners := StopPort(s.owners, was, d), tasks := map[])
  {
  }
}
