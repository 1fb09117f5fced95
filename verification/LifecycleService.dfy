/** The lifecycle service itself: methods over the three monitors, one call at a time.  `world` and
    `steps` are history: each call into a monitor is recorded as the step it is in
    DeviceLifecycle.dfy, and the monitors' views are at all times what those steps lead to.  So
    every run theorem applies to the object; and because nothing comes between a probe and a bind
    here, no device is ever orphaned, and every device is consistent after every call. */
module LifecycleService {
  import opened Wrappers
  import opened Reservations
  import opened Sessions
  import opened Listeners
  import opened PortMapping
  import opened DeviceLifecycle
  import opened DeviceConsistency
  import opened DeviceTheorems
  import opened SoloSteps

  lemma {:induction false} RunSnoc(range: Range, s: Server, labels: seq<Label>, l: Label)
    ensures Run(range, s, labels + [l]) == Step(range, Run(range, s, labels), l)
    decreases |labels|
  {
    if labels == [] {
      assert labels + [l] == [l];
      assert Run(range, Step(range, s, l), [l][1..]) == Step(range, s, l);
    } else {
      assert (labels + [l])[1..] == labels[1..] + [l];
      RunSnoc(range, Step(range, s, labels[0]), labels[1..], l);
    }
  }

  lemma LoadedIsSafe(m: PortMappingService, banned: set<Device>)
    requires m.Valid() && m.View().cache == Loaded(m.repository)
    ensures Inv(Started(m.repository, banned))
  {
    InverseGivesTable(m.mappings, m.devicePorts);
    var cache := m.View().cache;
    assert forall d | d in m.repository :: SameButOnline(cache[d], m.repository[d]);
    StartedInv(m.repository, banned);
  }

  lemma WhatInvGives(range: Range, s: Server, labels: seq<Label>)
    requires Inv(s)
    ensures var t := Run(range, s, labels); MutuallyInverse(t.sessions) && WellFormed(t.reservations)
  {
    RunKeepsInv(range, s, labels);
  }

  lemma UpdateReaches(range: Range, s: Store, d: Device, p: Port, committed: bool)
    requires WellFormed(s)
    ensures var (after, reply) := UpdateExternalPort(range, s, d, p, committed);
      if reply.Granted? then d in after.cache && after.cache[d].externalPort == p else after == s
    ensures d in s.cache && range.Contains(p) && !Reserved(s.cache, p) ==>
      (UpdateExternalPort(range, s, d, p, committed).1.Granted? <==> committed)
  {
  }

  lemma RemovesOwn(t: SessionTables, d: Device)
    requires MutuallyInverse(t) && HasSession(t, d)
    ensures !HasSession(RemoveByChannel(t, Current(t, d).channel), d)
  {
  }

  /** The channel serves another device. */
  predicate Taken(w: Server, d: Device, c: Channel) {
    var found := SessionByChannel(w.sessions, c);
    found.Some? && found.value in w.sessions.objects && w.sessions.objects[found.value].deviceId != d
  }

  /** The port a registration ends with, if it succeeds: everything that can refuse it, in order. */
  function GrantedPort(range: Range, w: Server, d: Device, c: Channel, target: int,
      saved: bool, bound: bool, committed: bool, dies: bool): Option<Port> {
    if !ValidTarget(target) || c in w.dead || Taken(w, d, c) || d in w.banned then None
    else
      var (store, reply) := Allocate(range, w.reservations, d, target, saved);
      if !reply.Granted? || !StartPort(w.owners, reply.port, d, bound).1 then None
      else if !MarkOnline(store, d, target, committed).1.Done? || dies then None
      else Some(reply.port)
  }

  /** The control channel of the current session. */
  function ChannelOf(w: Server, d: Device): Option<Channel> {
    if SessionOf(w, d).Some? then Some(SessionOf(w, d).value.channel) else None
  }

  /** Whether a port update succeeds. */
  predicate Updates(range: Range, w: Server, d: Device, p: Port, bound: bool, committed: bool) {
    && range.Contains(p) && RowOf(w, d).Some?
    && (RowOf(w, d).value.externalPort == p
        || (!Reserved(w.reservations.cache, p) && (IsOnline(w, d) ==> StartPort(w.owners, p, d, bound).1) && committed))
  }

  class DeviceLifecycleService {
    const mappings: PortMappingService
    const sessions: SessionStore
    const ports: DataPortService
    var banned: set<Device>
    var dead: set<Channel>
    ghost const start: Server
    ghost var world: Server
    ghost var steps: seq<Label>

    /** The monitors hold what the recorded steps lead to. */
    ghost predicate Synced()
      reads this, mappings, sessions, ports
    {
      && mappings.Valid() && sessions.Valid() && ports.Valid()
      && world.reservations == mappings.View() && world.sessions == sessions.View() && world.owners == ports.View()
      && world.banned == banned && world.dead == dead
      && world.orphaned == {} && Recorded()
    }

    ghost predicate Recorded()
      reads this
    {
      Inv(start) && world == Run(mappings.range, start, steps)
    }

    /** Between calls no lock is held. */
    ghost predicate Valid()
      reads this, mappings, sessions, ports
    {
      Synced() && world.tasks == map[]
    }

    constructor (mappings: PortMappingService, banned: set<Device>)
      requires mappings.Valid() && mappings.View().cache == Loaded(mappings.repository)
      ensures Valid() && this.mappings == mappings && start == Started(mappings.repository, banned) && steps == []
      ensures fresh(sessions) && fresh(ports)
    {
      this.mappings := mappings;
      this.banned, dead := banned, {};
      var store := new SessionStore();
      var listeners := new DataPortService();
      sessions, ports := store, listeners;
      var initial := Started(mappings.repository, banned);
      start, world, steps := initial, initial, [];
      LoadedIsSafe(mappings, banned);
    }

    /** After every call, every device is consistent: EveryRunIsSafe without its exception. */
    lemma Consistency(d: Device)
      requires Valid()
      ensures WellFormed(mappings.View()) && MutuallyInverse(sessions.View())
      ensures Sound(LocalOf(world, d), dead) && Consistent(world, d)
    {
      RunKeepsInv(mappings.range, start, steps);
      assert GoodDevice(world, d);
    }

    ghost method Note(l: Label)
      requires Recorded()
      modifies this`world, this`steps
      ensures Recorded() && world == Step(mappings.range, old(world), l) && steps == old(steps) + [l]
    {
      RunSnoc(mappings.range, start, steps, l);
      world := Step(mappings.range, world, l);
      steps := steps + [l];
    }

    /** The control channel of a client is closed by its peer. */
    method ChannelDies(c: Channel)
      requires Synced()
      modifies this`dead, this`world, this`steps
      ensures Synced() && dead == old(dead) + {c} && world == old(world).(dead := dead)
    {
      hide Run; hide Inv;
      dead := dead + {c};
      Note(Label.ChannelDies(c));
    }

    // ---------- register ----------

    /** The checks before anything is reserved. */
    method Admit(d: Device, c: Channel, target: int) returns (admitted: bool)
      requires Valid()
      modifies this`world, this`steps
      ensures Synced()
      ensures admitted <==> ValidTarget(target) && c !in dead && !Taken(old(world), d, c) && d !in banned
      ensures world == old(world).(tasks := if admitted then Solo(d, Task.Register(c, AllocatePort(target))) else map[])
    {
      hide Run; hide Step; hide Inv; hide SessionStore.Valid; hide DataPortService.Valid; hide DataPortService.View;
      hide PortMappingService.Valid; hide PortMappingService.View;
      Begins(mappings.range, world, d, c, target, 0);
      Note(BeginRegister(d, c, target));
      if !ValidTarget(target) { return false; }
      ChecksActive(mappings.range, world, d, c, target);
      Note(Advance(d, true, 0));
      if c in dead { return false; }
      ChecksOwner(mappings.range, world, d, c, target);
      var registered := sessions.GetSessionByChannel(c);
      Note(Advance(d, true, 0));
      if registered.Some? && sessions.objects[registered.value].deviceId != d { return false; }
      ChecksBan(mappings.range, world, d, c, target);
      Note(Advance(d, true, 0));
      return d !in banned;
    }

    /** Reservation and listener.  Nothing comes between the probe and the bind here, so a listener
        of another device is always refused. */
    method Listen(d: Device, c: Channel, target: int, saved: bool, bind: Option<int>)
        returns (port: Option<Port>, previouslyActive: bool)
      requires Synced() && RegisterAt(world, d, c, AllocatePort(target))
      requires bind.Some? ==> bind.value !in ports.inactive && bind.value !in ports.dataPortChannels.Values
      modifies this`world, this`steps, mappings, ports
      ensures Synced() && world.sessions == old(world).sessions
      ensures var (store, reply) := Allocate(mappings.range, old(world).reservations, d, target, saved);
        && world.reservations == store
        && var started := reply.Granted? && StartPort(old(world).owners, reply.port, d, bind.Some?).1;
        port == if started then Some(reply.port) else None
      ensures if port.None? then world.tasks == map[]
              else RegisterAt(world, d, c, SetOnline(target, port.value, Probe(previouslyActive, false)))
    {
      hide Run; hide Step; hide Inv; hide SessionStore.Valid; hide DataPortService.Valid; hide DataPortService.View;
      hide PortMappingService.Valid; hide PortMappingService.View;
      previouslyActive := false;
      Allocates(mappings.range, world, d, c, target, saved);
      var reply := mappings.AllocatePort(d, target, saved);
      Note(Advance(d, saved, 0));
      if !reply.Granted? { return None, false; }
      var p := reply.port;
      Probes(mappings.range, world, d, c, target, p);
      previouslyActive := ports.IsPortActive(p);
      Note(Advance(d, true, 0));
      ghost var probe := Probe(p in world.owners, p in world.owners && world.owners[p] != d);
      Binds(mappings.range, world, d, c, target, p, probe, bind.Some?);
      var started := ports.StartDataPort(p, d, bind);
      Note(Advance(d, bind.Some?, 0));
      port := if started then Some(p) else None;
    }

    method UndoListener(d: Device, c: Channel, p: Port, markedOnline: bool)
      requires Synced() && RegisterAt(world, d, c, UndoPort(p, markedOnline))
      modifies this`world, this`steps, mappings, ports
      ensures Valid() && world.sessions == old(world).sessions
    {
      hide Run; hide Step; hide Inv; hide SessionStore.Valid; hide DataPortService.Valid; hide DataPortService.View;
      hide PortMappingService.Valid; hide PortMappingService.View;
      UndoesPort(mappings.range, world, d, c, p, markedOnline);
      var _ := ports.StopDataPort(p, d);
      Note(Advance(d, true, 0));
      if markedOnline {
        UndoesOnline(mappings.range, world, d, c);
        mappings.MarkDeviceOffline(d);
        Note(Advance(d, true, 0));
      }
    }

    /** `committed`: the write of the online flag; `dies`: the channel dies meanwhile. */
    method GoOnline(d: Device, c: Channel, target: int, p: Port, previouslyActive: bool, committed: bool, dies: bool)
        returns (online: bool)
      requires Synced() && RegisterAt(world, d, c, SetOnline(target, p, Probe(previouslyActive, false)))
      modifies this`world, this`steps, this`dead, mappings, ports
      ensures Synced() && world.sessions == old(world).sessions
      ensures online <==> MarkOnline(old(world).reservations, d, target, committed).1.Done? && !dies && c !in old(dead)
      ensures online ==> dead == old(dead)
      ensures if online then RegisterAt(world, d, c, RetireOld(p)) else world.tasks == map[]
    {
      hide Run; hide Step; hide Inv; hide SessionStore.Valid; hide DataPortService.Valid; hide DataPortService.View;
      hide PortMappingService.Valid; hide PortMappingService.View;
      SetsOnline(mappings.range, world, d, c, target, p, previouslyActive, committed);
      var reply := mappings.MarkDeviceOnline(d, target, committed);
      Note(Advance(d, committed, 0));
      if !reply.Done? {
        if !previouslyActive { UndoListener(d, c, p, false); }
        return false;
      }
      if dies { ChannelDies(c); }
      ChecksAgain(mappings.range, world, d, c, p, previouslyActive);
      Note(Advance(d, true, 0));
      if c in dead {
        if !previouslyActive { UndoListener(d, c, p, true); }
        return false;
      }
      return true;
    }

    /** The session being replaced is marked, and its external connections are closed. */
    method RetireSession(d: Device, c: Channel, p: Port)
      requires Synced() && RegisterAt(world, d, c, RetireOld(p))
      modifies this`world, this`steps, sessions, ports
      ensures Synced() && RegisterAt(world, d, c, Install(p)) && sessions.objects.Keys == old(sessions.objects.Keys)
      ensures ChannelOf(world, d) == ChannelOf(old(world), d)
      ensures ports.portConnectionMap ==
              if SessionOf(old(world), d).Some? && p in old(ports.portConnectionMap)
              then old(ports.portConnectionMap)[p := map[]] else old(ports.portConnectionMap)
    {
      hide Run; hide Step; hide Inv; hide SessionStore.Valid; hide DataPortService.Valid; hide DataPortService.View;
      hide PortMappingService.Valid; hide PortMappingService.View;
      RetiresOld(mappings.range, world, d, c, p);
      var replaced := sessions.GetSession(d);
      if replaced.Some? {
        sessions.SetStatus(replaced.value, OFFLINE);
        var _ := ports.CloseConnections(p);
      }
      Note(Advance(d, true, 0));
    }

    method InstallSession(ref: SessionRef, d: Device, c: Channel, p: Port)
      requires Synced() && RegisterAt(world, d, c, Install(p)) && Fresh(sessions.View(), ref)
      modifies this`world, this`steps, this`dead, sessions
      ensures Valid() && SessionOf(world, d) == Some(ClientSession(d, c, p, ONLINE))
      ensures var before := ChannelOf(old(world), d);
        dead == old(dead) + if before.Some? && before != Some(c) then {before.value} else {}
    {
      hide Run; hide Step; hide Inv; hide SessionStore.Valid; hide DataPortService.Valid; hide DataPortService.View;
      hide PortMappingService.Valid; hide PortMappingService.View;
      Installs(mappings.range, world, d, c, p, ref);
      var closed := sessions.Register(ref, d, c, p);
      dead := dead + closed;
      Note(Advance(d, true, ref));
    }

    /** A registration succeeds exactly when nothing refuses it, and then its session is installed
        on the granted port, the channel of the session it replaces is closed, unless it is the same,
        and with it all external connections of the port; otherwise every session is as it was. */
    method Register(d: Device, c: Channel, target: int, ref: SessionRef,
        saved: bool, bind: Option<int>, committed: bool, dies: bool) returns (port: Option<Port>)
      requires Valid() && Fresh(sessions.View(), ref)
      requires bind.Some? ==> bind.value !in ports.inactive && bind.value !in ports.dataPortChannels.Values
      modifies this`world, this`steps, this`dead, mappings, sessions, ports
      ensures Valid()
      ensures port == GrantedPort(mappings.range, old(world), d, c, target, saved, bind.Some?, committed, dies)
      ensures port.Some? ==> SessionOf(world, d) == Some(ClientSession(d, c, port.value, ONLINE))
      ensures var before := ChannelOf(old(world), d);
        port.Some? ==> dead == old(dead) + if before.Some? && before != Some(c) then {before.value} else {}
      ensures port.Some? && SessionOf(old(world), d).Some? && port.value in ports.portConnectionMap ==>
                ports.portConnectionMap[port.value] == map[]
      ensures port.None? ==> world.sessions == old(world).sessions
    {
      hide Run; hide Step; hide Inv; hide SessionStore.Valid; hide DataPortService.Valid; hide DataPortService.View;
      hide PortMappingService.Valid; hide PortMappingService.View;
      var admitted := Admit(d, c, target);
      if !admitted { return None; }
      var previouslyActive: bool;
      port, previouslyActive := Listen(d, c, target, saved, bind);
      if port.None? { return None; }
      var online := GoOnline(d, c, target, port.value, previouslyActive, committed, dies);
      if !online { return None; }
      RetireSession(d, c, port.value);
      InstallSession(ref, d, c, port.value);
    }

    // ---------- disconnecting ----------

    /** `disconnectLocked`: the session goes first, so that nothing late can claim it. */
    method DisconnectLocked(d: Device, next: Next)
      requires Synced() && DropAt(world, d, ReadSession(next))
      modifies this`world, this`steps, this`dead, mappings, sessions, ports
      ensures Synced() && world.tasks == AfterDrop(d, next) && SessionOf(world, d).None?
      ensures SessionOf(old(world), d).None? ==> world == old(world).(tasks := AfterDrop(d, next))
      ensures SessionOf(old(world), d).Some? ==> dead == old(dead) + {SessionOf(old(world), d).value.channel}
      ensures d in world.reservations.cache <==> d in old(world).reservations.cache
    {
      hide Run; hide Step; hide Inv; hide SessionStore.Valid; hide DataPortService.Valid; hide DataPortService.View;
      hide PortMappingService.Valid; hide PortMappingService.View;
      ReadsSession(mappings.range, world, d, next);
      var session := sessions.GetSession(d);
      Note(Advance(d, true, 0));
      if session.None? { return; }
      var (c, p) := (sessions.objects[session.value].channel, sessions.objects[session.value].externalPort);
      WhatInvGives(mappings.range, start, steps);
      RemovesOwn(world.sessions, d);
      DropSession(d, c, p, next);
    }

    method DropSession(d: Device, c: Channel, p: Port, next: Next)
      requires Synced() && DropAt(world, d, RemoveSession(c, p, next))
      modifies this`world, this`steps, this`dead, mappings, sessions, ports
      ensures Synced() && world.tasks == AfterDrop(d, next) && dead == old(dead) + {c}
      ensures world.sessions == RemoveByChannel(old(world).sessions, c)
      ensures world.reservations == MarkOffline(old(world).reservations, d)
    {
      hide StopPort; hide RemoveByChannel;
      hide Run; hide Step; hide Inv; hide SessionStore.Valid; hide DataPortService.Valid; hide DataPortService.View;
      hide PortMappingService.Valid; hide PortMappingService.View;
      RemovesSession(mappings.range, world, d, c, p, next);
      sessions.RemoveSessionByChannel(c);
      Note(Advance(d, true, 0));
      StopsListener(mappings.range, world, d, c, p, next);
      var _ := ports.StopDataPort(p, d);
      Note(Advance(d, true, 0));
      GoOffline(d, c, next);
    }

    method GoOffline(d: Device, c: Channel, next: Next)
      requires Synced() && DropAt(world, d, SetOffline(c, next))
      modifies this`world, this`steps, this`dead, mappings
      ensures Synced() && dead == old(dead) + {c}
      ensures world == old(world).(
                reservations := MarkOffline(old(world).reservations, d), dead := dead, tasks := AfterDrop(d, next))
    {
      hide MarkOffline;
      hide Run; hide Step; hide Inv; hide SessionStore.Valid; hide DataPortService.Valid; hide DataPortService.View;
      hide PortMappingService.Valid; hide PortMappingService.View;
      SetsOffline(mappings.range, world, d, c, next);
      mappings.MarkDeviceOffline(d);
      Note(Advance(d, true, 0));
      ClosesChannel(mappings.range, world, d, c, next);
      dead := dead + {c};
      Note(Advance(d, true, 0));
    }

    method ChannelInactive(c: Channel)
      requires Valid()
      modifies this`world, this`steps, this`dead, mappings, sessions, ports
      ensures Valid()
      ensures var observed := SessionByChannel(old(world).sessions, c);
        if observed.None? then world == old(world)
        else SessionOf(world, old(sessions.objects)[observed.value].deviceId).None?
    {
      hide Run; hide Step; hide Inv; hide SessionStore.Valid; hide DataPortService.Valid; hide DataPortService.View;
      hide PortMappingService.Valid; hide PortMappingService.View;
      var observed := sessions.GetSessionByChannel(c);
      if observed.None? { return; }
      BeginsDisconnected(mappings.range, world, observed.value);
      var d := sessions.objects[observed.value].deviceId;
      Note(Label.Disconnected(observed.value));
      DisconnectLocked(d, Finish);
    }

    method Disconnect(d: Device)
      requires Valid()
      modifies this`world, this`steps, this`dead, mappings, sessions, ports
      ensures Valid() && SessionOf(world, d).None?
    {
      hide Run; hide Step; hide Inv; hide SessionStore.Valid; hide DataPortService.Valid; hide DataPortService.View;
      hide PortMappingService.Valid; hide PortMappingService.View;
      Begins(mappings.range, world, d, 0, 0, 0);
      Note(BeginDisconnect(d));
      DisconnectLocked(d, Finish);
    }

    /** A ban that is saved leaves no session behind. */
    method Ban(d: Device, saved: bool)
      requires Valid()
      modifies this, mappings, sessions, ports
      ensures Valid() && (saved ==> d in banned && SessionOf(world, d).None?) && (!saved ==> world == old(world))
    {
      hide Run; hide Step; hide Inv; hide SessionStore.Valid; hide DataPortService.Valid; hide DataPortService.View;
      hide PortMappingService.Valid; hide PortMappingService.View;
      Begins(mappings.range, world, d, 0, 0, 0);
      Note(BeginBan(d));
      Bans(mappings.range, world, d, saved);
      if saved { banned := banned + {d}; }
      Note(Advance(d, saved, 0));
      if !saved { return; }
      DisconnectLocked(d, Finish);
    }

    method DeleteMapping(d: Device, committed: bool) returns (reply: Reply)
      requires Valid()
      modifies this`world, this`steps, this`dead, mappings, sessions, ports
      ensures Valid() && (reply.Done? ==> RowOf(world, d).None?)
      ensures reply.Done? <==> RowOf(old(world), d).None? || committed
    {
      hide Run; hide Step; hide Inv; hide SessionStore.Valid; hide DataPortService.Valid; hide DataPortService.View;
      hide PortMappingService.Valid; hide PortMappingService.View;
      Begins(mappings.range, world, d, 0, 0, 0);
      Note(BeginDelete(d));
      DisconnectLocked(d, ReleaseReservation);
      Releases(mappings.range, world, d, committed);
      reply := mappings.ReleasePort(d, committed);
      Note(Advance(d, committed, 0));
    }

    method Unban(d: Device, saved: bool)
      requires Valid()
      modifies this`world, this`steps, this`banned
      ensures Valid() && banned == (if saved then old(banned) - {d} else old(banned))
          && world == old(world).(banned := banned)
    {
      hide Run; hide Inv;
      if saved { banned := banned - {d}; }
      Note(Label.Unban(d, saved));
    }

    method Preset(d: Device, p: Port, target: int, committed: bool) returns (reply: Reply)
      requires Valid()
      modifies this`world, this`steps, mappings
      ensures Valid()
      ensures (world.reservations, reply) ==
              SetFixedPort(mappings.range, old(world).reservations, d, p, target, committed)
      ensures world == old(world).(reservations := world.reservations)
    {
      hide Run; hide Inv; hide SetFixedPort;
      reply := mappings.PresetPort(d, p, target, committed);
      Note(Label.Preset(d, p, target, committed));
    }

    // ---------- updating a port ----------

    /** The checks of `updatePort`, up to a bind that may be needed; a grant names the port it reads. */
    method CheckUpdate(d: Device, p: Port) returns (reply: Reply)
      requires Valid()
      modifies this`world, this`steps
      ensures Synced()
      ensures var row := RowOf(old(world), d);
        reply == if !mappings.range.Contains(p) then InvalidArgument
                 else if row.None? then Absent
                 else if row.value.externalPort != p && Reserved(old(world).reservations.cache, p) then AlreadyReserved
                 else Granted(row.value.externalPort)
      ensures world == old(world).(tasks := if reply.Granted? && reply.port != p
                                            then Solo(d, Update(ReadOnline(reply.port, p))) else map[])
    {
      hide Run; hide Step; hide Inv; hide SessionStore.Valid; hide DataPortService.Valid; hide DataPortService.View;
      hide PortMappingService.Valid; hide PortMappingService.View;
      Begins(mappings.range, world, d, 0, 0, p);
      Note(BeginUpdate(d, p));
      ReadsPort(mappings.range, world, d, p);
      var was := mappings.GetPortByDevice(d);
      Note(Advance(d, true, 0));
      if !mappings.range.Contains(p) { return InvalidArgument; }
      if was.None? { return Absent; }
      if was.value == p { return Granted(p); }
      ChecksReserved(mappings.range, world, d, was.value, p);
      var owner := mappings.GetDeviceByPort(p);
      Note(Advance(d, true, 0));
      return if owner.Some? then AlreadyReserved else Granted(was.value);
    }

    /** The tentative listener, only for a device that is online. */
    method BindTentatively(d: Device, was: Port, p: Port, bind: Option<int>)
        returns (started: bool, session: Option<SessionRef>, online: bool)
      requires Synced() && UpdateAt(world, d, ReadOnline(was, p))
      requires bind.Some? ==> bind.value !in ports.inactive && bind.value !in ports.dataPortChannels.Values
      modifies this`world, this`steps, ports
      ensures Synced() && session == RefOf(world, d)
      ensures started <==> (IsOnline(old(world), d) ==> StartPort(old(world).owners, p, d, bind.Some?).1)
      ensures world.reservations == old(world).reservations && world.sessions == old(world).sessions
      ensures if started then UpdateAt(world, d, SavePort(was, p, session, online)) else world.tasks == map[]
    {
      hide Run; hide Step; hide Inv; hide SessionStore.Valid; hide DataPortService.Valid; hide DataPortService.View;
      hide PortMappingService.Valid; hide PortMappingService.View;
      ReadsOnline(mappings.range, world, d, was, p);
      session := sessions.GetSession(d);
      online := session.Some?
        && sessions.objects[session.value].channel !in dead && sessions.objects[session.value].status.ONLINE?;
      Note(Advance(d, true, 0));
      BindsNew(mappings.range, world, d, was, p, session, online, bind.Some?);
      started := true;
      if online { started := ports.StartDataPort(p, d, bind); }
      Note(Advance(d, bind.Some?, 0));
    }

    /** The reservation first; a write that fails undoes the bind. */
    method SaveUpdate(d: Device, was: Port, p: Port, session: Option<SessionRef>, online: bool,
          committed: bool) returns (reply: Reply)
      requires Synced() && UpdateAt(world, d, SavePort(was, p, session, online))
      modifies this`world, this`steps, mappings, ports
      ensures Synced() && world.sessions == old(world).sessions
      ensures (world.reservations, reply) ==
              UpdateExternalPort(mappings.range, old(world).reservations, d, p, committed)
      ensures if reply.Granted? then UpdateAt(world, d, MoveSession(was, p, session, online)) else world.tasks == map[]
    {
      hide Run; hide Step; hide Inv; hide SessionStore.Valid; hide DataPortService.Valid; hide DataPortService.View;
      hide PortMappingService.Valid; hide PortMappingService.View;
      SavesPort(mappings.range, world, d, was, p, session, online, committed);
      reply := mappings.UpdatePort(d, p, committed);
      Note(Advance(d, committed, 0));
      if !reply.Granted? && online {
        UndoesBind(mappings.range, world, d, was, p);
        var _ := ports.StopDataPort(p, d);
        Note(Advance(d, true, 0));
      }
    }

    method FinishUpdate(d: Device, was: Port, p: Port, session: Option<SessionRef>, online: bool)
      requires Synced() && UpdateAt(world, d, MoveSession(was, p, session, online)) && session == RefOf(world, d)
      modifies this`world, this`steps, sessions, ports
      ensures Valid() && world.reservations == old(world).reservations
      ensures SessionOf(old(world), d).Some? ==>
            SessionOf(world, d) == Some(SessionOf(old(world), d).value.(externalPort := p))
    {
      hide Run; hide Step; hide Inv; hide SessionStore.Valid; hide DataPortService.Valid; hide DataPortService.View;
      hide PortMappingService.Valid; hide PortMappingService.View;
      MovesSession(mappings.range, world, d, was, p, session, online);
      if session.Some? { sessions.SetExternalPort(session.value, p); }
      Note(Advance(d, true, 0));
      StopsOld(mappings.range, world, d, was, p, online);
      var _ := ports.StopDataPort(was, d);
      Note(Advance(d, true, 0));
    }

    /** `updatePort`: on success the reservation and the session are on the new port; on failure
        both are as they were.  A refused bind is told as `AlreadyReserved`. */
    method UpdatePort(d: Device, p: Port, bind: Option<int>, committed: bool) returns (reply: Reply)
      requires Valid()
      requires bind.Some? ==> bind.value !in ports.inactive && bind.value !in ports.dataPortChannels.Values
      modifies this`world, this`steps, mappings, sessions, ports
      ensures Valid()
      ensures reply.Granted? <==> Updates(mappings.range, old(world), d, p, bind.Some?, committed)
      ensures reply.Granted? ==> RowOf(world, d).Some? && RowOf(world, d).value.externalPort == p
      ensures reply.Granted? && SessionOf(world, d).Some? ==> SessionOf(world, d).value.externalPort == p
      ensures !reply.Granted? ==> world.reservations == old(world).reservations && world.sessions == old(world).sessions
    {
      hide UpdateExternalPort; hide StartPort; hide NoLeftovers; hide MutuallyInverse;
      hide Run; hide Step; hide Inv; hide SessionStore.Valid; hide DataPortService.Valid; hide DataPortService.View;
      hide PortMappingService.Valid; hide PortMappingService.View;
      reply := CheckUpdate(d, p);
      if reply.Granted? && reply.port != p {
        var was := reply.port;
        var started, session, online := BindTentatively(d, was, p, bind);
        if !started { return AlreadyReserved; }
        WhatInvGives(mappings.range, start, steps);
        UpdateReaches(mappings.range, world.reservations, d, p, committed);
        reply := SaveUpdate(d, was, p, session, online, committed);
        if reply.Granted? { FinishUpdate(d, was, p, session, online); }
      }
      if reply.Granted? { Consistency(d); }
    }
  }
}
