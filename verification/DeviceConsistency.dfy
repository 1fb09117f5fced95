/** Safety of the device lifecycle over every interleaving: what each device satisfies whenever
    its lock is free, and the one family of failures after which it does not. */
module DeviceConsistency {
  import opened Wrappers
  import opened Reservations
  import opened Sessions
  import opened Listeners
  import opened DeviceLifecycle

  /** All that the four tables and the lock say about one device. */
  datatype Local = Local(
    row: Option<Reservation>,
    session: Option<ClientSession>,
    ref: Option<SessionRef>,
    ports: set<Port>,
    banned: bool,
    task: Option<Task>)

  function LocalOf(s: Server, d: Device): Local {
    Local(RowOf(s, d), SessionOf(s, d), RefOf(s, d), PortsOf(s.owners, d), d in s.banned,
          if d in s.tasks then Some(s.tasks[d]) else None)
  }

  // Conditions on one device --------------------------------------------------------------

  /** The session's port is the reserved port. */
  ghost predicate PortAgrees(l: Local) {
    l.session.Some? ==>
      l.row.Some? && l.session.value.externalPort == l.row.value.externalPort && l.session.value.status.ONLINE?
  }

  /** Nobody would be served: no session, or one whose channel is gone. */
  ghost predicate Unserved(l: Local, dead: set<Channel>) {
    l.session.Some? ==> l.session.value.channel in dead
  }

  /** A session with a live channel is listened for, on the reserved port, and shown online. */
  ghost predicate Served(l: Local, dead: set<Channel>) {
    Unserved(l, dead) || (l.row.Some? && l.row.value.externalPort in l.ports && l.row.value.online)
  }

  ghost predicate BanHolds(l: Local) { l.banned ==> l.session.None? }

  /** A listener belongs to a session and is on the reserved port. */
  ghost predicate ListenerJustified(l: Local) {
    forall p | p in l.ports :: l.row.Some? && p == l.row.value.externalPort && l.session.Some?
  }

  ghost predicate OnlineJustified(l: Local) { l.row.Some? && l.row.value.online ==> l.session.Some? }

  ghost predicate Sound(l: Local, dead: set<Channel>) { PortAgrees(l) && Served(l, dead) && BanHolds(l) }

  ghost predicate NoLeftovers(l: Local) { ListenerJustified(l) && OnlineJustified(l) }

  /** The consistency the four tables should have for a device nobody is working on. */
  ghost predicate Consistent(s: Server, d: Device) {
    Sound(LocalOf(s, d), s.dead) && NoLeftovers(LocalOf(s, d))
  }

  // What holds at each point of an operation ----------------------------------------------

  ghost predicate OnPort(l: Local, p: Port) { l.row.Some? && l.row.value.externalPort == p }

  /** `clean`: the device has not been orphaned, so the leftover conditions are kept as well. */
  ghost predicate GoodRegister(l: Local, dead: set<Channel>, clean: bool, at: RegisterPoint) {
    && BanHolds(l)
    && (!at.Install? ==> PortAgrees(l))
    && Served(l, dead)
    && (match at
        case CheckActive(_) => clean ==> NoLeftovers(l)
        case CheckOwner(_) => clean ==> NoLeftovers(l)
        case CheckBan(_) => clean ==> NoLeftovers(l)
        case AllocatePort(target) => !l.banned && (clean ==> NoLeftovers(l))
        case ProbePort(target, p) => !l.banned && OnPort(l, p) && (clean ==> NoLeftovers(l))
        case BindPort(target, p, probe) =>
          && !l.banned && OnPort(l, p) && (clean ==> NoLeftovers(l))
          && (probe.foreign ==> probe.previouslyActive)
          && (p in l.ports <==> probe.previouslyActive && !probe.foreign)
        case SetOnline(target, p, probe) =>
          !l.banned && Bound(l, dead, clean, p, probe) && (clean ==> OnlineJustified(l))
        case CheckAgain(p, probe) => !l.banned && Bound(l, dead, clean, p, probe) && l.row.value.online
        case UndoPort(p, markedOnline) =>
          && OnPort(l, p) && Unserved(l, dead)
          && (clean ==> OnlyOn(l, p) && (!markedOnline ==> OnlineJustified(l)))
        case UndoOnline => Unserved(l, dead) && (clean ==> Silent(l))
        case RetireOld(p) => !l.banned && Listening(l, p, clean)
        case Install(p) => !l.banned && Listening(l, p, clean))
  }

  /** The port is bound; the flag tells whether it was this device's own listener before. */
  ghost predicate Bound(l: Local, dead: set<Channel>, clean: bool, p: Port, probe: Probe) {
    && OnPort(l, p) && p in l.ports
    && (probe.foreign ==> probe.previouslyActive)
    && (probe.previouslyActive && !probe.foreign ==> clean ==> l.session.Some?)
    && (!probe.previouslyActive || probe.foreign ==> Unserved(l, dead))
    && (clean ==> OnlyOn(l, p))
  }

  ghost predicate Silent(l: Local) { forall q :: q !in l.ports }

  ghost predicate OnlyOn(l: Local, p: Port) { forall q | q in l.ports :: q == p }

  ghost predicate Listening(l: Local, p: Port, clean: bool) {
    OnPort(l, p) && p in l.ports && l.row.value.online && (clean ==> OnlyOn(l, p))
  }

  ghost predicate GoodDrop(l: Local, dead: set<Channel>, clean: bool, at: DropPoint) {
    match at
    case SaveBan => Sound(l, dead) && (clean ==> NoLeftovers(l))
    case ReadSession(_) => PortAgrees(l) && Served(l, dead) && (clean ==> NoLeftovers(l))
    case RemoveSession(c, p, _) =>
      && PortAgrees(l) && Served(l, dead) && (clean ==> NoLeftovers(l))
      && l.session.Some? && l.session.value.channel == c && l.session.value.externalPort == p
    case StopListener(c, p, _) => l.session.None? && OnPort(l, p) && (clean ==> OnlyOn(l, p))
    case SetOffline(_, _) => l.session.None? && (clean ==> Silent(l))
    case CloseChannel(_, _) => l.session.None? && (clean ==> NoLeftovers(l))
    case ReleaseRow => l.session.None? && (clean ==> NoLeftovers(l))
  }

  ghost predicate GoodUpdate(l: Local, dead: set<Channel>, clean: bool, at: UpdatePoint) {
    && BanHolds(l)
    && (match at
        case ReadPort(_) => Sound(l, dead) && (clean ==> NoLeftovers(l))
        case CheckReserved(was, p) => Sound(l, dead) && (clean ==> NoLeftovers(l)) && OnPort(l, was) && was != p
        case ReadOnline(was, p) => Sound(l, dead) && (clean ==> NoLeftovers(l)) && OnPort(l, was) && was != p
        case BindNew(was, p, session, online) =>
          && Sound(l, dead) && (clean ==> NoLeftovers(l)) && OnPort(l, was) && was != p
          && l.ref == session && OnlineRead(l, dead, online)
        case SavePort(was, p, session, online) =>
          && Sound(l, dead) && OnPort(l, was) && was != p
          && l.ref == session && OnlineRead(l, dead, online)
          && (online ==> p in l.ports) && (clean ==> Moving(l, was, p, online))
        case UndoBind(was, p) =>
          Sound(l, dead) && OnPort(l, was) && was != p && l.session.Some? && (clean ==> Moving(l, was, p, true))
        case MoveSession(was, p, session, online) =>
          && OnPort(l, p) && was != p && l.ref == session && OnlineRead(l, dead, online)
          && (l.session.Some? ==> l.session.value.externalPort == was && l.session.value.status.ONLINE?)
          && (online ==> p in l.ports) && Served(l, dead) && (clean ==> Moving(l, was, p, online))
        case StopOld(was, p, online) =>
          && OnPort(l, p) && was != p && PortAgrees(l) && OnlineRead(l, dead, online)
          && (online ==> p in l.ports) && Served(l, dead) && (clean ==> Moving(l, was, p, online)))
  }

  ghost predicate OnlineRead(l: Local, dead: set<Channel>, online: bool) {
    (online ==> l.session.Some?) && (!online ==> Unserved(l, dead))
  }

  /** Between binding the new port and stopping the old one. */
  ghost predicate Moving(l: Local, was: Port, p: Port, online: bool) {
    && OnlineJustified(l)
    && forall q | q in l.ports :: l.session.Some? && (q == was || (online && q == p))
  }

  ghost predicate Good(l: Local, dead: set<Channel>, clean: bool) {
    match l.task
    case None => Sound(l, dead) && (clean ==> NoLeftovers(l))
    case Some(Register(_, at)) => GoodRegister(l, dead, clean, at)
    case Some(Drop(at)) => GoodDrop(l, dead, clean, at)
    case Some(Update(at)) => GoodUpdate(l, dead, clean, at)
  }

  ghost predicate GoodDevice(s: Server, d: Device) { Good(LocalOf(s, d), s.dead, d !in s.orphaned) }

  // Conditions across devices -------------------------------------------------------------

  predicate PastOwnerCheck(at: RegisterPoint) { !at.CheckActive? && !at.CheckOwner? }

  ghost predicate OneRegistrationPerChannel(s: Server) {
    forall d, e | d in s.tasks && e in s.tasks && s.tasks[d].Register? && s.tasks[e].Register?
                  && s.tasks[d].c == s.tasks[e].c :: d == e
  }

  /** Past its ownership check a registration's channel serves no other device. */
  ghost predicate Claim(s: Server, d: Device) {
    d in s.tasks && s.tasks[d].Register? && PastOwnerCheck(s.tasks[d].register) ==>
      (s.tasks[d].c in s.sessions.channelToDevice ==> s.sessions.channelToDevice[s.tasks[d].c] == d)
  }

  ghost predicate ChannelsClaimed(s: Server) {
    OneRegistrationPerChannel(s) && forall d :: Claim(s, d)
  }

  ghost predicate Global(s: Server) {
    WellFormed(s.reservations) && MutuallyInverse(s.sessions) && ChannelsClaimed(s)
  }

  ghost predicate Inv(s: Server) {
    Global(s) && forall d :: GoodDevice(s, d)
  }

  // Frame: a step of one device is invisible to the others ----------------------------------

  /** Nothing that concerns `e` changes, except that more channels may be dead. */
  ghost predicate SameFor(s: Server, s': Server, e: Device) {
    s.dead <= s'.dead && LocalOf(s', e) == LocalOf(s, e) && (e in s'.orphaned <==> e in s.orphaned)
  }

  lemma DeathIsHarmless(l: Local, dead: set<Channel>, dead': set<Channel>, clean: bool)
    requires Good(l, dead, clean) && dead <= dead'
    ensures Good(l, dead', clean)
  {
  }

  ghost predicate RowKeyed(s: Server, d: Device) {
    d in s.reservations.cache ==> s.reservations.cache[d].deviceId == d
  }

  lemma RegisterChecksFrame(range: Range, s: Server, d: Device, c: Channel, at: RegisterPoint, ok: bool,
        ref: SessionRef, e: Device)
    requires e != d && (at.CheckActive? || at.CheckOwner? || at.CheckBan? || at.ProbePort?)
    ensures SameFor(s, StepRegister(range, s, d, c, at, ok, ref), e)
  {
  }

  lemma RegisterRowsFrame(range: Range, s: Server, d: Device, c: Channel, at: RegisterPoint, ok: bool,
        ref: SessionRef, e: Device)
    requires RowKeyed(s, d) && e != d && (at.AllocatePort? || at.UndoOnline?)
    ensures SameFor(s, StepRegister(range, s, d, c, at, ok, ref), e)
  {
  }

  lemma RegisterOnlineFrame(range: Range, s: Server, d: Device, c: Channel, at: RegisterPoint, ok: bool,
        ref: SessionRef, e: Device)
    requires RowKeyed(s, d) && e != d && at.SetOnline?
    ensures SameFor(s, StepRegister(range, s, d, c, at, ok, ref), e)
  {
  }

  lemma RegisterPortsFrame(range: Range, s: Server, d: Device, c: Channel, at: RegisterPoint, ok: bool,
        ref: SessionRef, e: Device)
    requires e != d && (at.BindPort? || at.CheckAgain? || at.UndoPort?)
    ensures SameFor(s, StepRegister(range, s, d, c, at, ok, ref), e)
  {
    OthersKeepListeners(s.owners, at.p, d, ok, e);
  }

  lemma RegisterSessionsFrame(range: Range, s: Server, d: Device, c: Channel, at: RegisterPoint, ok: bool,
        ref: SessionRef, e: Device)
    requires MutuallyInverse(s.sessions) && e != d && (at.RetireOld? || at.Install?)
    ensures SameFor(s, StepRegister(range, s, d, c, at, ok, ref), e)
  {
  }

  lemma DropFrame(s: Server, d: Device, at: DropPoint, ok: bool, e: Device)
    requires e != d && !at.RemoveSession?
    ensures SameFor(s, StepDrop(s, d, at, ok), e)
  {
    if at.StopListener? { OthersKeepListeners(s.owners, at.p, d, ok, e); }
  }

  lemma DropSessionFrame(s: Server, d: Device, at: DropPoint, ok: bool, e: Device)
    requires MutuallyInverse(s.sessions) && e != d && at.RemoveSession?
    requires SessionOf(s, d).Some? && SessionOf(s, d).value.channel == at.c
    ensures SameFor(s, StepDrop(s, d, at, ok), e)
  {
  }

  lemma UpdateFrame(range: Range, s: Server, d: Device, at: UpdatePoint, ok: bool, e: Device)
    requires e != d && (at.ReadPort? || at.CheckReserved? || at.ReadOnline?)
    ensures SameFor(s, StepUpdate(range, s, d, at, ok), e)
  {
  }

  lemma UpdatePortsFrame(range: Range, s: Server, d: Device, at: UpdatePoint, ok: bool, e: Device)
    requires e != d && (at.BindNew? || at.UndoBind? || at.StopOld?)
    ensures SameFor(s, StepUpdate(range, s, d, at, ok), e)
  {
    OthersKeepListeners(s.owners, if at.StopOld? then at.was else at.p, d, ok, e);
  }

  lemma UpdateRowFrame(range: Range, s: Server, d: Device, at: UpdatePoint, ok: bool, e: Device)
    requires RowKeyed(s, d) && e != d && at.SavePort?
    ensures SameFor(s, StepUpdate(range, s, d, at, ok), e)
  {
  }

  lemma UpdateSessionFrame(range: Range, s: Server, d: Device, at: UpdatePoint, ok: bool, e: Device)
    requires MutuallyInverse(s.sessions) && e != d && at.MoveSession? && at.session == RefOf(s, d)
    ensures SameFor(s, StepUpdate(range, s, d, at, ok), e)
  {
  }

  /** Whatever step a device takes, no other device's row, session, listeners or lock changes;
      in particular a loser of a race for a port never stops the winner's listener. */
  lemma TaskFrame(range: Range, s: Server, d: Device, ok: bool, ref: SessionRef, e: Device)
    requires Global(s) && GoodDevice(s, d) && d in s.tasks && e != d
    ensures SameFor(s, StepTask(range, s, d, s.tasks[d], ok, ref), e)
  {
    match s.tasks[d]
    case Register(c, at) =>
      if at.CheckActive? || at.CheckOwner? || at.CheckBan? || at.ProbePort? {
        RegisterChecksFrame(range, s, d, c, at, ok, ref, e);
      } else if at.AllocatePort? || at.UndoOnline? {
        RegisterRowsFrame(range, s, d, c, at, ok, ref, e);
      } else if at.SetOnline? {
        RegisterOnlineFrame(range, s, d, c, at, ok, ref, e);
      } else if at.BindPort? || at.CheckAgain? || at.UndoPort? {
        RegisterPortsFrame(range, s, d, c, at, ok, ref, e);
      } else {
        RegisterSessionsFrame(range, s, d, c, at, ok, ref, e);
      }
    case Drop(at) =>
      if at.RemoveSession? { DropSessionFrame(s, d, at, ok, e); } else { DropFrame(s, d, at, ok, e); }
    case Update(at) =>
      if at.ReadPort? || at.CheckReserved? || at.ReadOnline? {
        UpdateFrame(range, s, d, at, ok, e);
      } else if at.BindNew? || at.UndoBind? || at.StopOld? {
        UpdatePortsFrame(range, s, d, at, ok, e);
      } else if at.SavePort? {
        UpdateRowFrame(range, s, d, at, ok, e);
      } else {
        UpdateSessionFrame(range, s, d, at, ok, e);
      }
  }

  // Each step keeps its own device's condition -----------------------------------------------

  lemma GoodRegisterChecks(range: Range, s: Server, d: Device, ok: bool, ref: SessionRef)
    requires GoodDevice(s, d) && d in s.tasks && s.tasks[d].Register?
    requires var at := s.tasks[d].register; at.CheckActive? || at.CheckOwner? || at.CheckBan?
    ensures GoodDevice(StepTask(range, s, d, s.tasks[d], ok, ref), d)
  {
    hide GoodDrop; hide StepDrop; hide GoodUpdate; hide StepUpdate;
  }

  lemma GoodRegisterAllocate(range: Range, s: Server, d: Device, ok: bool, ref: SessionRef)
    requires GoodDevice(s, d) && d in s.tasks && s.tasks[d].Register?
    requires var at := s.tasks[d].register; at.AllocatePort?
    requires RowKeyed(s, d)
    ensures GoodDevice(StepTask(range, s, d, s.tasks[d], ok, ref), d)
  {
    hide GoodDrop; hide StepDrop; hide GoodUpdate; hide StepUpdate;
  }

  lemma GoodRegisterProbe(range: Range, s: Server, d: Device, ok: bool, ref: SessionRef)
    requires GoodDevice(s, d) && d in s.tasks && s.tasks[d].Register?
    requires var at := s.tasks[d].register; at.ProbePort?
    requires RowKeyed(s, d)
    ensures GoodDevice(StepTask(range, s, d, s.tasks[d], ok, ref), d)
  {
    hide GoodDrop; hide StepDrop; hide GoodUpdate; hide StepUpdate;
  }

  lemma GoodRegisterBind(range: Range, s: Server, d: Device, ok: bool, ref: SessionRef)
    requires GoodDevice(s, d) && d in s.tasks && s.tasks[d].Register?
    requires var at := s.tasks[d].register; at.BindPort?
    ensures GoodDevice(StepTask(range, s, d, s.tasks[d], ok, ref), d)
  {
    hide GoodDrop; hide StepDrop; hide GoodUpdate; hide StepUpdate;
  }

  lemma GoodRegisterSetOnline(range: Range, s: Server, d: Device, ok: bool, ref: SessionRef)
    requires GoodDevice(s, d) && d in s.tasks && s.tasks[d].Register?
    requires var at := s.tasks[d].register; at.SetOnline?
    requires RowKeyed(s, d)
    ensures GoodDevice(StepTask(range, s, d, s.tasks[d], ok, ref), d)
  {
    hide GoodUpdate; hide GoodDrop; hide StepUpdate; hide StepDrop; hide StartPort; hide StopPort;
  }

  lemma GoodRegisterCheckAgain(range: Range, s: Server, d: Device, ok: bool, ref: SessionRef)
    requires GoodDevice(s, d) && d in s.tasks && s.tasks[d].Register?
    requires var at := s.tasks[d].register; at.CheckAgain?
    ensures GoodDevice(StepTask(range, s, d, s.tasks[d], ok, ref), d)
  {
    hide GoodDrop; hide StepDrop; hide GoodUpdate; hide StepUpdate;
  }

  lemma GoodRegisterUndoPort(range: Range, s: Server, d: Device, ok: bool, ref: SessionRef)
    requires GoodDevice(s, d) && d in s.tasks && s.tasks[d].Register?
    requires var at := s.tasks[d].register; at.UndoPort?
    ensures GoodDevice(StepTask(range, s, d, s.tasks[d], ok, ref), d)
  {
    hide GoodDrop; hide StepDrop; hide GoodUpdate; hide StepUpdate;
  }

  lemma GoodRegisterUndoOnline(range: Range, s: Server, d: Device, ok: bool, ref: SessionRef)
    requires GoodDevice(s, d) && d in s.tasks && s.tasks[d].Register?
    requires var at := s.tasks[d].register; at.UndoOnline?
    requires RowKeyed(s, d)
    ensures GoodDevice(StepTask(range, s, d, s.tasks[d], ok, ref), d)
  {
    hide GoodDrop; hide StepDrop; hide GoodUpdate; hide StepUpdate;
  }

  lemma GoodRegisterRetire(range: Range, s: Server, d: Device, ok: bool, ref: SessionRef)
    requires GoodDevice(s, d) && d in s.tasks && s.tasks[d].Register?
    requires var at := s.tasks[d].register; at.RetireOld?
    ensures GoodDevice(StepTask(range, s, d, s.tasks[d], ok, ref), d)
  {
    hide GoodDrop; hide StepDrop; hide GoodUpdate; hide StepUpdate;
  }

  lemma GoodRegisterInstall(range: Range, s: Server, d: Device, ok: bool, ref: SessionRef)
    requires GoodDevice(s, d) && d in s.tasks && s.tasks[d].Register?
    requires var at := s.tasks[d].register; at.Install?
    ensures GoodDevice(StepTask(range, s, d, s.tasks[d], ok, ref), d)
  {
    hide GoodDrop; hide StepDrop; hide GoodUpdate; hide StepUpdate;
  }

  lemma GoodDropBegin(range: Range, s: Server, d: Device, ok: bool, ref: SessionRef)
    requires GoodDevice(s, d) && d in s.tasks && s.tasks[d].Drop?
    requires var at := s.tasks[d].drop; at.SaveBan? || at.ReadSession?
    ensures GoodDevice(StepTask(range, s, d, s.tasks[d], ok, ref), d)
  {
    hide GoodRegister; hide StepRegister; hide GoodUpdate; hide StepUpdate;
  }

  lemma GoodDropSession(range: Range, s: Server, d: Device, ok: bool, ref: SessionRef)
    requires GoodDevice(s, d) && d in s.tasks && s.tasks[d].Drop?
    requires var at := s.tasks[d].drop; at.RemoveSession?
    requires var c := s.tasks[d].drop.c; c in s.sessions.channelToDevice && s.sessions.channelToDevice[c] == d
    ensures GoodDevice(StepTask(range, s, d, s.tasks[d], ok, ref), d)
  {
    hide GoodRegister; hide StepRegister; hide GoodUpdate; hide StepUpdate;
  }

  lemma GoodDropListener(range: Range, s: Server, d: Device, ok: bool, ref: SessionRef)
    requires GoodDevice(s, d) && d in s.tasks && s.tasks[d].Drop?
    requires var at := s.tasks[d].drop; at.StopListener?
    ensures GoodDevice(StepTask(range, s, d, s.tasks[d], ok, ref), d)
  {
    hide GoodRegister; hide StepRegister; hide GoodUpdate; hide StepUpdate;
  }

  lemma GoodDropOffline(range: Range, s: Server, d: Device, ok: bool, ref: SessionRef)
    requires GoodDevice(s, d) && d in s.tasks && s.tasks[d].Drop?
    requires var at := s.tasks[d].drop; at.SetOffline?
    requires RowKeyed(s, d)
    ensures GoodDevice(StepTask(range, s, d, s.tasks[d], ok, ref), d)
  {
    hide GoodRegister; hide StepRegister; hide GoodUpdate; hide StepUpdate;
  }

  lemma GoodDropEnd(range: Range, s: Server, d: Device, ok: bool, ref: SessionRef)
    requires GoodDevice(s, d) && d in s.tasks && s.tasks[d].Drop?
    requires var at := s.tasks[d].drop; at.CloseChannel? || at.ReleaseRow?
    ensures GoodDevice(StepTask(range, s, d, s.tasks[d], ok, ref), d)
  {
    hide GoodRegister; hide StepRegister; hide GoodUpdate; hide StepUpdate;
  }

  lemma GoodUpdateChecks(range: Range, s: Server, d: Device, ok: bool, ref: SessionRef)
    requires GoodDevice(s, d) && d in s.tasks && s.tasks[d].Update?
    requires var at := s.tasks[d].update; at.ReadPort? || at.CheckReserved?
    ensures GoodDevice(StepTask(range, s, d, s.tasks[d], ok, ref), d)
  {
    hide GoodRegister; hide StepRegister; hide GoodDrop; hide StepDrop;
  }

  lemma GoodUpdateReadOnline(range: Range, s: Server, d: Device, ok: bool, ref: SessionRef)
    requires GoodDevice(s, d) && d in s.tasks && s.tasks[d].Update?
    requires var at := s.tasks[d].update; at.ReadOnline?
    ensures GoodDevice(StepTask(range, s, d, s.tasks[d], ok, ref), d)
  {
    hide GoodRegister; hide StepRegister; hide GoodDrop; hide StepDrop;
  }

  lemma GoodUpdateBind(range: Range, s: Server, d: Device, ok: bool, ref: SessionRef)
    requires GoodDevice(s, d) && d in s.tasks && s.tasks[d].Update?
    requires var at := s.tasks[d].update; at.BindNew?
    ensures GoodDevice(StepTask(range, s, d, s.tasks[d], ok, ref), d)
  {
    hide GoodRegister; hide GoodDrop; hide StepRegister; hide StepDrop;
  }

  lemma GoodUpdateSave(range: Range, s: Server, d: Device, ok: bool, ref: SessionRef)
    requires GoodDevice(s, d) && d in s.tasks && s.tasks[d].Update?
    requires var at := s.tasks[d].update; at.SavePort?
    requires RowKeyed(s, d)
    ensures GoodDevice(StepTask(range, s, d, s.tasks[d], ok, ref), d)
  {
    hide GoodRegister; hide GoodDrop; hide StepRegister; hide StepDrop; hide StartPort; hide StopPort;
  }

  lemma GoodUpdateUndo(range: Range, s: Server, d: Device, ok: bool, ref: SessionRef)
    requires GoodDevice(s, d) && d in s.tasks && s.tasks[d].Update?
    requires var at := s.tasks[d].update; at.UndoBind?
    ensures GoodDevice(StepTask(range, s, d, s.tasks[d], ok, ref), d)
  {
    hide GoodRegister; hide StepRegister; hide GoodDrop; hide StepDrop;
  }

  lemma GoodUpdateMove(range: Range, s: Server, d: Device, ok: bool, ref: SessionRef)
    requires GoodDevice(s, d) && d in s.tasks && s.tasks[d].Update?
    requires var at := s.tasks[d].update; at.MoveSession?
    ensures GoodDevice(StepTask(range, s, d, s.tasks[d], ok, ref), d)
  {
    hide GoodRegister; hide StepRegister; hide GoodDrop; hide StepDrop;
  }

  lemma GoodUpdateStopOld(range: Range, s: Server, d: Device, ok: bool, ref: SessionRef)
    requires GoodDevice(s, d) && d in s.tasks && s.tasks[d].Update?
    requires var at := s.tasks[d].update; at.StopOld?
    ensures GoodDevice(StepTask(range, s, d, s.tasks[d], ok, ref), d)
  {
    hide GoodRegister; hide StepRegister; hide GoodDrop; hide StepDrop;
  }

  lemma TaskKeepsGood(range: Range, s: Server, d: Device, ok: bool, ref: SessionRef)
    requires Global(s) && GoodDevice(s, d) && d in s.tasks
    ensures GoodDevice(StepTask(range, s, d, s.tasks[d], ok, ref), d)
  {
    match s.tasks[d]
    case Register(c, at) => RegisterKeepsGood(range, s, d, ok, ref);
    case Drop(at) => DropKeepsGood(range, s, d, ok, ref);
    case Update(at) => UpdateKeepsGood(range, s, d, ok, ref);
  }

  lemma RegisterKeepsGood(range: Range, s: Server, d: Device, ok: bool, ref: SessionRef)
    requires Global(s) && GoodDevice(s, d) && d in s.tasks && s.tasks[d].Register?
    ensures GoodDevice(StepTask(range, s, d, s.tasks[d], ok, ref), d)
  {
    hide Good; hide StepTask;
    match s.tasks[d].register
    case CheckActive(_) => GoodRegisterChecks(range, s, d, ok, ref);
    case CheckOwner(_) => GoodRegisterChecks(range, s, d, ok, ref);
    case CheckBan(_) => GoodRegisterChecks(range, s, d, ok, ref);
    case AllocatePort(_) => GoodRegisterAllocate(range, s, d, ok, ref);
    case ProbePort(_, _) => GoodRegisterProbe(range, s, d, ok, ref);
    case BindPort(_, _, _) => GoodRegisterBind(range, s, d, ok, ref);
    case SetOnline(_, _, _) => GoodRegisterSetOnline(range, s, d, ok, ref);
    case CheckAgain(_, _) => GoodRegisterCheckAgain(range, s, d, ok, ref);
    case UndoPort(_, _) => GoodRegisterUndoPort(range, s, d, ok, ref);
    case UndoOnline => GoodRegisterUndoOnline(range, s, d, ok, ref);
    case RetireOld(_) => GoodRegisterRetire(range, s, d, ok, ref);
    case Install(_) => GoodRegisterInstall(range, s, d, ok, ref);
  }

  lemma DropKeepsGood(range: Range, s: Server, d: Device, ok: bool, ref: SessionRef)
    requires Global(s) && GoodDevice(s, d) && d in s.tasks && s.tasks[d].Drop?
    ensures GoodDevice(StepTask(range, s, d, s.tasks[d], ok, ref), d)
  {
    match s.tasks[d].drop
    case SaveBan => GoodDropBegin(range, s, d, ok, ref);
    case ReadSession(_) => GoodDropBegin(range, s, d, ok, ref);
    case RemoveSession(_, _, _) => GoodDropSession(range, s, d, ok, ref);
    case StopListener(_, _, _) => GoodDropListener(range, s, d, ok, ref);
    case SetOffline(_, _) => GoodDropOffline(range, s, d, ok, ref);
    case CloseChannel(_, _) => GoodDropEnd(range, s, d, ok, ref);
    case ReleaseRow => GoodDropEnd(range, s, d, ok, ref);
  }

  lemma UpdateKeepsGood(range: Range, s: Server, d: Device, ok: bool, ref: SessionRef)
    requires Global(s) && GoodDevice(s, d) && d in s.tasks && s.tasks[d].Update?
    ensures GoodDevice(StepTask(range, s, d, s.tasks[d], ok, ref), d)
  {
    match s.tasks[d].update
    case ReadPort(_) => GoodUpdateChecks(range, s, d, ok, ref);
    case CheckReserved(_, _) => GoodUpdateChecks(range, s, d, ok, ref);
    case ReadOnline(_, _) => GoodUpdateReadOnline(range, s, d, ok, ref);
    case BindNew(_, _, _, _) => GoodUpdateBind(range, s, d, ok, ref);
    case SavePort(_, _, _, _) => GoodUpdateSave(range, s, d, ok, ref);
    case UndoBind(_, _) => GoodUpdateUndo(range, s, d, ok, ref);
    case MoveSession(_, _, _, _) => GoodUpdateMove(range, s, d, ok, ref);
    case StopOld(_, _, _) => GoodUpdateStopOld(range, s, d, ok, ref);
  }

  // Each step keeps the conditions across devices -----------------------------------------------

  lemma TaskKeepsReservations(range: Range, s: Server, d: Device, ok: bool, ref: SessionRef)
    requires WellFormed(s.reservations) && d in s.tasks
    ensures WellFormed(StepTask(range, s, d, s.tasks[d], ok, ref).reservations)
  {
    hide WellFormed; hide Allocate; hide MarkOnline; hide MarkOffline; hide Release; hide UpdateExternalPort;
    hide StartPort; hide StopPort; hide RegisterSession; hide RemoveByChannel; hide SessionByChannel;
    var st := s.reservations;
    match s.tasks[d]
    case Register(c, at) =>
      if at.AllocatePort? {
        ApplyKeepsWellFormed(range, st, AllocateOp(d, at.target, ok));
      } else if at.SetOnline? {
        ApplyKeepsWellFormed(range, st, MarkOnlineOp(d, at.target, ok));
      } else if at.UndoOnline? {
        ApplyKeepsWellFormed(range, st, MarkOfflineOp(d));
      }
    case Drop(at) =>
      if at.SetOffline? {
        ApplyKeepsWellFormed(range, st, MarkOfflineOp(d));
      } else if at.ReleaseRow? {
        ApplyKeepsWellFormed(range, st, ReleaseOp(d, ok));
      }
    case Update(at) =>
      if at.SavePort? { ApplyKeepsWellFormed(range, st, UpdateOp(d, at.p, ok)); }
  }

  lemma RegisterTaskKeepsInverse(range: Range, s: Server, d: Device, ok: bool, ref: SessionRef)
    requires MutuallyInverse(s.sessions) && Claim(s, d) && d in s.tasks && s.tasks[d].Register?
    ensures MutuallyInverse(StepTask(range, s, d, s.tasks[d], ok, ref).sessions)
  {
    var (c, at) := (s.tasks[d].c, s.tasks[d].register);
    if at.Install? && ref !in s.sessions.objects {
      RegisterKeepsInverse(s.sessions, ref, d, c, at.p);
    }
  }

  lemma TaskKeepsInverse(range: Range, s: Server, d: Device, ok: bool, ref: SessionRef)
    requires MutuallyInverse(s.sessions) && Claim(s, d) && d in s.tasks
    ensures MutuallyInverse(StepTask(range, s, d, s.tasks[d], ok, ref).sessions)
  {
    match s.tasks[d]
    case Register(c, at) => RegisterTaskKeepsInverse(range, s, d, ok, ref);
    case Drop(at) => if at.RemoveSession? { RemoveKeepsInverse(s.sessions, at.c); }
    case Update(at) =>
  }

  /** What a step of `d` may do to the tasks and to the device a channel `c` serves: it moves
      only its own program counter, within the same registration, and adds at most the channel
      that registration installs. */
  ghost predicate OwnEffect(s: Server, s': Server, d: Device, e: Device, c: Channel)
    requires d in s.tasks
  {
    && (e != d ==> (e in s'.tasks <==> e in s.tasks) && (e in s.tasks ==> s'.tasks[e] == s.tasks[e]))
    && (d in s'.tasks && s'.tasks[d].Register? ==> Registers(s.tasks[d], s'.tasks[d].c))
    && (c in s'.sessions.channelToDevice ==>
          || (c in s.sessions.channelToDevice && s'.sessions.channelToDevice[c] == s.sessions.channelToDevice[c])
          || (Registers(s.tasks[d], c) && s'.sessions.channelToDevice[c] == d))
  }

  lemma RegisterChecksEffect(range: Range, s: Server, d: Device, ok: bool, ref: SessionRef, e: Device, c: Channel)
    requires d in s.tasks && s.tasks[d].Register?
    requires var at := s.tasks[d].register;
      at.CheckActive? || at.CheckOwner? || at.CheckBan? || at.AllocatePort? || at.ProbePort?
    ensures OwnEffect(s, StepTask(range, s, d, s.tasks[d], ok, ref), d, e, c)
  {
  }

  lemma RegisterBindEffect(range: Range, s: Server, d: Device, ok: bool, ref: SessionRef, e: Device, c: Channel)
    requires d in s.tasks && s.tasks[d].Register?
    requires var at := s.tasks[d].register; at.BindPort? || at.SetOnline? || at.CheckAgain? || at.UndoPort?
    ensures OwnEffect(s, StepTask(range, s, d, s.tasks[d], ok, ref), d, e, c)
  {
  }

  lemma RegisterEndEffect(range: Range, s: Server, d: Device, ok: bool, ref: SessionRef, e: Device, c: Channel)
    requires d in s.tasks && s.tasks[d].Register?
    requires var at := s.tasks[d].register; at.UndoOnline? || at.RetireOld? || at.Install?
    ensures OwnEffect(s, StepTask(range, s, d, s.tasks[d], ok, ref), d, e, c)
  {
  }

  lemma DropEffect(range: Range, s: Server, d: Device, ok: bool, ref: SessionRef, e: Device, c: Channel)
    requires d in s.tasks && s.tasks[d].Drop?
    ensures OwnEffect(s, StepTask(range, s, d, s.tasks[d], ok, ref), d, e, c)
  {
  }

  lemma UpdateEffect(range: Range, s: Server, d: Device, ok: bool, ref: SessionRef, e: Device, c: Channel)
    requires d in s.tasks && s.tasks[d].Update?
    ensures OwnEffect(s, StepTask(range, s, d, s.tasks[d], ok, ref), d, e, c)
  {
  }

  lemma TaskEffect(range: Range, s: Server, d: Device, ok: bool, ref: SessionRef, e: Device, c: Channel)
    requires d in s.tasks
    ensures OwnEffect(s, StepTask(range, s, d, s.tasks[d], ok, ref), d, e, c)
  {
    match s.tasks[d]
    case Register(_, at) =>
      if at.CheckActive? || at.CheckOwner? || at.CheckBan? || at.AllocatePort? || at.ProbePort? {
        RegisterChecksEffect(range, s, d, ok, ref, e, c);
      } else if at.BindPort? || at.SetOnline? || at.CheckAgain? || at.UndoPort? {
        RegisterBindEffect(range, s, d, ok, ref, e, c);
      } else {
        RegisterEndEffect(range, s, d, ok, ref, e, c);
      }
    case Drop(_) => DropEffect(range, s, d, ok, ref, e, c);
    case Update(_) => UpdateEffect(range, s, d, ok, ref, e, c);
  }

  lemma OwnClaim(range: Range, s: Server, d: Device, ok: bool, ref: SessionRef)
    requires MutuallyInverse(s.sessions) && Claim(s, d) && d in s.tasks && s.tasks[d].Register?
        && !s.tasks[d].register.Install?
    ensures Claim(StepTask(range, s, d, s.tasks[d], ok, ref), d)
  {
  }

  lemma TaskKeepsClaims(range: Range, s: Server, d: Device, ok: bool, ref: SessionRef)
    requires Global(s) && d in s.tasks
    ensures ChannelsClaimed(StepTask(range, s, d, s.tasks[d], ok, ref))
  {
    var s' := StepTask(range, s, d, s.tasks[d], ok, ref);
    forall d', e | d' in s'.tasks && e in s'.tasks && s'.tasks[d'].Register? && s'.tasks[e].Register?
                   && s'.tasks[d'].c == s'.tasks[e].c
      ensures d' == e
    {
      TaskEffect(range, s, d, ok, ref, d', 0);
      TaskEffect(range, s, d, ok, ref, e, 0);
    }
    forall e
      ensures Claim(s', e)
    {
      assert Claim(s, e);
      if e == d {
        if s.tasks[d].Register? && !s.tasks[d].register.Install? { OwnClaim(range, s, d, ok, ref); }
        TaskEffect(range, s, d, ok, ref, e, 0);
      } else if e in s.tasks && s.tasks[e].Register? {
        TaskEffect(range, s, d, ok, ref, e, s.tasks[e].c);
      } else {
        TaskEffect(range, s, d, ok, ref, e, 0);
      }
    }
  }

  lemma AdvanceKeepsInv(range: Range, s: Server, d: Device, ok: bool, ref: SessionRef)
    requires Inv(s) && d in s.tasks
    ensures Inv(StepTask(range, s, d, s.tasks[d], ok, ref))
  {
    var s' := StepTask(range, s, d, s.tasks[d], ok, ref);
    assert Claim(s, d);
    TaskKeepsReservations(range, s, d, ok, ref);
    TaskKeepsInverse(range, s, d, ok, ref);
    TaskKeepsClaims(range, s, d, ok, ref);
    assert GoodDevice(s, d);
    forall e
      ensures GoodDevice(s', e)
    {
      if e == d {
        TaskKeepsGood(range, s, d, ok, ref);
      } else {
        TaskFrame(range, s, d, ok, ref, e);
        assert GoodDevice(s, e);
        DeathIsHarmless(LocalOf(s, e), s.dead, s'.dead, e !in s.orphaned);
      }
    }
  }

  lemma DeathKeepsInv(s: Server, c: Channel)
    requires Inv(s)
    ensures Inv(s.(dead := s.dead + {c}))
  {
    var s' := s.(dead := s.dead + {c});
    forall e
      ensures GoodDevice(s', e) && Claim(s', e)
    {
      assert LocalOf(s', e) == LocalOf(s, e);
      assert GoodDevice(s, e) && Claim(s, e);
      DeathIsHarmless(LocalOf(s, e), s.dead, s'.dead, e !in s.orphaned);
    }
  }

  /** An operation that takes a free lock. */
  lemma BeginKeepsInv(s: Server, d: Device, t: Task)
    requires Inv(s) && d !in s.tasks
    requires match t
             case Register(c, at) => at.CheckActive? && !Registering(s, c)
             case Drop(at) => at.SaveBan? || at.ReadSession?
             case Update(at) => at.ReadPort?
    ensures Inv(Goto(s, d, t))
  {
    var s' := Goto(s, d, t);
    forall e
      ensures GoodDevice(s', e) && Claim(s', e)
    {
      assert GoodDevice(s, e) && Claim(s, e);
      assert LocalOf(s', e) == LocalOf(s, e).(task := LocalOf(s', e).task);
    }
  }

  lemma UnbanKeepsInv(s: Server, d: Device)
    requires Inv(s)
    ensures Inv(s.(banned := s.banned - {d}))
  {
    var s' := s.(banned := s.banned - {d});
    forall e
      ensures GoodDevice(s', e) && Claim(s', e)
    {
      assert GoodDevice(s, e) && Claim(s, e);
      assert LocalOf(s', e) == LocalOf(s, e).(banned := e in s'.banned);
    }
  }

  /** A preset gives a row to its own device only, if that has none. */
  lemma PresetLeaves(range: Range, s: Server, d: Device, p: Port, target: int, ok: bool, e: Device)
    ensures var s' := s.(reservations := SetFixedPort(range, s.reservations, d, p, target, ok).0);
      LocalOf(s', e) == LocalOf(s, e) || (e == d && RowOf(s, d).None? && LocalOf(s', e) ==
        LocalOf(s, e).(row := Some(Reservation(d, p, target, false))))
  {
  }

  lemma PresetKeepsInv(range: Range, s: Server, d: Device, p: Port, target: int, ok: bool)
    requires Inv(s) && d !in s.tasks
    ensures Inv(s.(reservations := SetFixedPort(range, s.reservations, d, p, target, ok).0))
  {
    hide SetFixedPort; hide RowOf; hide SessionOf; hide PortsOf;
    var s' := s.(reservations := SetFixedPort(range, s.reservations, d, p, target, ok).0);
    ApplyKeepsWellFormed(range, s.reservations, PresetOp(d, p, target, ok));
    forall e
      ensures GoodDevice(s', e) && Claim(s', e)
    {
      assert GoodDevice(s, e) && Claim(s, e);
      PresetLeaves(range, s, d, p, target, ok, e);
    }
  }

  lemma StepKeepsInv(range: Range, s: Server, l: Label)
    requires Inv(s)
    ensures Inv(Step(range, s, l))
  {
    match l
    case Advance(d, ok, ref) => if d in s.tasks { AdvanceKeepsInv(range, s, d, ok, ref); }
    case ChannelDies(c) => DeathKeepsInv(s, c);
    case Unban(d, ok) => UnbanKeepsInv(s, d);
    case Preset(d, p, target, ok) => if d !in s.tasks { PresetKeepsInv(range, s, d, p, target, ok); }
    case _ => BeginLabelKeepsInv(range, s, l);
  }

  lemma BeginLabelKeepsInv(range: Range, s: Server, l: Label)
    requires Inv(s)
    requires l.BeginRegister? || l.Disconnected? || l.BeginDisconnect? || l.BeginBan? || l.BeginDelete?
        || l.BeginUpdate?
    ensures Inv(Step(range, s, l))
  {
    var s' := Step(range, s, l);
    if s' != s {
      var d := if l.Disconnected? then s.sessions.objects[l.observed].deviceId else l.d;
      BeginKeepsInv(s, d, s'.tasks[d]);
    }
  }
}
