/** What becomes of a device that an abandoned registration has left with a listener or an online
    flag: which operations make it consistent again (it then stays so until abandoned again, by
    DeviceTheorems.ConsistentUntilAbandoned), and which leftovers nothing but a reservation of
    their port or an update to it can ever remove. */
module Restoration {
  import opened Wrappers
  import opened Reservations
  import opened Sessions
  import opened Listeners
  import opened DeviceLifecycle
  import opened DeviceConsistency
  import opened DeviceTheorems
  import opened PortUpdates

  // Which operations restore ------------------------------------------------------------------------

  /** A reservation that was there is on the same port. */
  ghost predicate RowKept(l0: Local, l: Local) {
    l0.row.Some? ==> l.row.Some? && l.row.value.externalPort == l0.row.value.externalPort
  }

  ghost predicate PortsWith(l0: Local, l: Local, p: Port) { forall q :: q in l.ports <==> q in l0.ports || q == p }

  /** How far a registration of `d`, begun in `l0`, has got; `installed` says whether it has put its
      session in place. */
  ghost predicate RegisterProgress(l0: Local, l: Local, installed: bool) {
    && RowKept(l0, l)
    && (match l.task
        case None =>
          installed ==>
            && l.session.Some? && l.row.Some? && l.session.value.externalPort == l.row.value.externalPort
            && PortsWith(l0, l, l.row.value.externalPort)
        case Some(Register(_, at)) =>
          && !installed
          && (match at
              case SetOnline(_, p, _) => OnPort(l, p) && PortsWith(l0, l, p)
              case CheckAgain(p, _) => OnPort(l, p) && PortsWith(l0, l, p)
              case RetireOld(p) => OnPort(l, p) && PortsWith(l0, l, p)
              case Install(p) => OnPort(l, p) && PortsWith(l0, l, p)
              case UndoPort(_, _) => true
              case UndoOnline => true
              case _ => l.ports == l0.ports)
        case _ => false)
  }

  /** The step that puts the session of `d` in place. */
  predicate Installs(s: Server, l: Label, d: Device) {
    && l.Advance? && l.d == d && d in s.tasks && s.tasks[d].Register? && s.tasks[d].register.Install?
    && l.ref !in s.sessions.objects
  }

  predicate InstalledDuring(range: Range, s: Server, labels: seq<Label>, d: Device)
    decreases |labels|
  {
    labels != [] && (Installs(s, labels[0], d) || InstalledDuring(range, Step(range, s, labels[0]), labels[1..], d))
  }

  lemma EarlyRegisterProgress(range: Range, s: Server, d: Device, ok: bool, ref: SessionRef, l0: Local, installed: bool)
    requires GoodDevice(s, d) && RowKeyed(s, d) && RegisterProgress(l0, LocalOf(s, d), installed)
    requires d in s.tasks && s.tasks[d].Register?
    requires var at := s.tasks[d].register;
      at.CheckActive? || at.CheckOwner? || at.CheckBan? || at.AllocatePort? || at.ProbePort?
    ensures var installed' := installed || Installs(s, Advance(d, ok, ref), d);
      RegisterProgress(l0, LocalOf(StepTask(range, s, d, s.tasks[d], ok, ref), d), installed')
  {
    hide StepDrop; hide StepUpdate; hide GoodDrop; hide GoodUpdate;
  }

  lemma BindRegisterProgress(range: Range, s: Server, d: Device, ok: bool, ref: SessionRef, l0: Local, installed: bool)
    requires GoodDevice(s, d) && RowKeyed(s, d) && RegisterProgress(l0, LocalOf(s, d), installed)
    requires d in s.tasks && s.tasks[d].Register? && s.tasks[d].register.BindPort?
    ensures var installed' := installed || Installs(s, Advance(d, ok, ref), d);
      RegisterProgress(l0, LocalOf(StepTask(range, s, d, s.tasks[d], ok, ref), d), installed')
  {
    hide StepDrop; hide StepUpdate; hide GoodDrop; hide GoodUpdate;
  }

  lemma OnlineRegisterProgress(range: Range, s: Server, d: Device, ok: bool, ref: SessionRef, l0: Local,
        installed: bool)
    requires GoodDevice(s, d) && RowKeyed(s, d) && RegisterProgress(l0, LocalOf(s, d), installed)
    requires d in s.tasks && s.tasks[d].Register?
    requires var at := s.tasks[d].register; at.SetOnline? || at.CheckAgain?
    ensures var installed' := installed || Installs(s, Advance(d, ok, ref), d);
      RegisterProgress(l0, LocalOf(StepTask(range, s, d, s.tasks[d], ok, ref), d), installed')
  {
    hide StepDrop; hide StepUpdate; hide GoodDrop; hide GoodUpdate; hide StartPort; hide StopPort;
  }

  lemma LateRegisterProgress(range: Range, s: Server, d: Device, ok: bool, ref: SessionRef, l0: Local, installed: bool)
    requires GoodDevice(s, d) && RowKeyed(s, d) && RegisterProgress(l0, LocalOf(s, d), installed)
    requires d in s.tasks && s.tasks[d].Register?
    requires var at := s.tasks[d].register; at.UndoPort? || at.UndoOnline? || at.RetireOld? || at.Install?
    ensures var installed' := installed || Installs(s, Advance(d, ok, ref), d);
      RegisterProgress(l0, LocalOf(StepTask(range, s, d, s.tasks[d], ok, ref), d), installed')
  {
    hide StepDrop; hide StepUpdate; hide GoodDrop; hide GoodUpdate;
  }

  lemma OwnRegisterProgress(range: Range, s: Server, d: Device, ok: bool, ref: SessionRef, l0: Local, installed: bool)
    requires GoodDevice(s, d) && RowKeyed(s, d) && RegisterProgress(l0, LocalOf(s, d), installed) && d in s.tasks
    ensures var installed' := installed || Installs(s, Advance(d, ok, ref), d);
      RegisterProgress(l0, LocalOf(StepTask(range, s, d, s.tasks[d], ok, ref), d), installed')
  {
    hide StepTask; hide GoodDevice;
    var at := s.tasks[d].register;
    if at.CheckActive? || at.CheckOwner? || at.CheckBan? || at.AllocatePort? || at.ProbePort? {
      EarlyRegisterProgress(range, s, d, ok, ref, l0, installed);
    } else if at.BindPort? {
      BindRegisterProgress(range, s, d, ok, ref, l0, installed);
    } else if at.SetOnline? || at.CheckAgain? {
      OnlineRegisterProgress(range, s, d, ok, ref, l0, installed);
    } else {
      LateRegisterProgress(range, s, d, ok, ref, l0, installed);
    }
  }

  lemma {:induction false} RegisterRuns(range: Range, s: Server, labels: seq<Label>, d: Device, l0: Local,
        installed: bool)
    requires Inv(s) && RegisterProgress(l0, LocalOf(s, d), installed) && Undisturbed(range, s, labels, d)
    ensures var installed' := installed || InstalledDuring(range, s, labels, d);
      RegisterProgress(l0, LocalOf(Run(range, s, labels), d), installed')
    decreases |labels|
  {
    if labels == [] {
    } else {
      hide RegisterProgress; hide StepTask;
      var l := labels[0];
      StepKeepsInv(range, s, l);
      if l.Advance? && l.d == d && d in s.tasks {
        assert GoodDevice(s, d);
        OwnRegisterProgress(range, s, d, l.ok, l.ref, l0, installed);
      } else {
        OthersLeave(range, s, l, d);
      }
      RegisterRuns(range, Step(range, s, l), labels[1..], d, l0, installed || Installs(s, l, d));
    }
  }

  /** A registration that goes through, under any interference, leaves its device consistent if and
      only if, when it began, the device listened on no port but the one it ends up with: the
      reserved one, or if there was none, the one it is given. */
  lemma RegistrationRestoresIff(range: Range, s: Server, labels: seq<Label>, d: Device, c: Channel, target: int)
    requires Inv(s) && d !in s.tasks
    requires Undisturbed(range, Step(range, s, BeginRegister(d, c, target)), labels, d)
    ensures var s1 := Step(range, s, BeginRegister(d, c, target));
      var t := Run(range, s1, labels);
      d !in t.tasks && InstalledDuring(range, s1, labels, d) ==>
        && RowOf(t, d).Some? && RowKept(LocalOf(s, d), LocalOf(t, d))
        && (Consistent(t, d) <==> OnlyOn(LocalOf(s, d), RowOf(t, d).value.externalPort))
  {
    var s1 := Step(range, s, BeginRegister(d, c, target));
    StepKeepsInv(range, s, BeginRegister(d, c, target));
    assert RegisterProgress(LocalOf(s, d), LocalOf(s1, d), false);
    RegisterRuns(range, s1, labels, d, LocalOf(s, d), false);
    RunKeepsInv(range, s1, labels);
    var t := Run(range, s1, labels);
    if d !in t.tasks && InstalledDuring(range, s1, labels, d) { InstalledIff(t, LocalOf(s, d), d); }
  }

  lemma InstalledIff(t: Server, l0: Local, d: Device)
    requires Inv(t) && d !in t.tasks && RegisterProgress(l0, LocalOf(t, d), true)
    ensures RowOf(t, d).Some? && (Consistent(t, d) <==> OnlyOn(l0, RowOf(t, d).value.externalPort))
  {
    assert GoodDevice(t, d);
  }

  /** Row, session and listeners are what they were. */
  ghost predicate Kept(l0: Local, l: Local) { l.row == l0.row && l.session == l0.session && l.ports == l0.ports }

  /** How far dropping the session of `d`, begun in `l0` and leaving the reservation, has got; a ban
      that cannot be saved drops nothing. */
  ghost predicate DropProgress(l0: Local, l: Local, ban: bool) {
    && l0.session.Some? && l0.row.Some? && l0.session.value.externalPort == l0.row.value.externalPort
    && (match l.task
        case None => Dropped(l0, l) || (ban && Kept(l0, l))
        case Some(Drop(SaveBan)) => ban && Kept(l0, l)
        case Some(Drop(ReadSession(next))) => next.Finish? && Kept(l0, l)
        case Some(Drop(RemoveSession(c, p, next))) =>
          next.Finish? && Kept(l0, l) && c == l0.session.value.channel && p == l0.session.value.externalPort
        case Some(Drop(StopListener(_, p, next))) =>
          && next.Finish? && l.session.None? && l.row == l0.row && l.ports == l0.ports
          && p == l0.session.value.externalPort
        case Some(Drop(SetOffline(_, next))) => next.Finish? && l.session.None? && l.row == l0.row && Stopped(l0, l)
        case Some(Drop(CloseChannel(_, next))) => next.Finish? && Dropped(l0, l)
        case _ => false)
  }

  ghost predicate Stopped(l0: Local, l: Local)
    requires l0.session.Some?
  {
    forall q :: q in l.ports <==> q in l0.ports && q != l0.session.value.externalPort
  }

  ghost predicate Dropped(l0: Local, l: Local)
    requires l0.session.Some? && l0.row.Some?
  {
    l.session.None? && l.row == Some(l0.row.value.(online := false)) && Stopped(l0, l)
  }

  lemma DropBanProgress(range: Range, s: Server, d: Device, ok: bool, ref: SessionRef, l0: Local, ban: bool)
    requires GoodDevice(s, d) && RowKeyed(s, d) && DropProgress(l0, LocalOf(s, d), ban)
    requires d in s.tasks && s.tasks[d].Drop? && s.tasks[d].drop.SaveBan?
    ensures DropProgress(l0, LocalOf(StepTask(range, s, d, s.tasks[d], ok, ref), d), ban)
  {
    hide StepRegister; hide StepUpdate; hide GoodRegister; hide GoodUpdate;
  }

  lemma DropReadProgress(range: Range, s: Server, d: Device, ok: bool, ref: SessionRef, l0: Local, ban: bool)
    requires GoodDevice(s, d) && RowKeyed(s, d) && DropProgress(l0, LocalOf(s, d), ban)
    requires d in s.tasks && s.tasks[d].Drop? && s.tasks[d].drop.ReadSession?
    ensures DropProgress(l0, LocalOf(StepTask(range, s, d, s.tasks[d], ok, ref), d), ban)
  {
    hide StepRegister; hide StepUpdate; hide GoodRegister; hide GoodUpdate;
  }

  lemma DropRemoveProgress(range: Range, s: Server, d: Device, ok: bool, ref: SessionRef, l0: Local, ban: bool)
    requires GoodDevice(s, d) && RowKeyed(s, d) && MutuallyInverse(s.sessions) && DropProgress(l0, LocalOf(s, d), ban)
    requires d in s.tasks && s.tasks[d].Drop? && s.tasks[d].drop.RemoveSession?
    ensures DropProgress(l0, LocalOf(StepTask(range, s, d, s.tasks[d], ok, ref), d), ban)
  {
    hide StepRegister; hide StepUpdate; hide GoodRegister; hide GoodUpdate;
  }

  lemma DropStopProgress(range: Range, s: Server, d: Device, ok: bool, ref: SessionRef, l0: Local, ban: bool)
    requires GoodDevice(s, d) && RowKeyed(s, d) && DropProgress(l0, LocalOf(s, d), ban)
    requires d in s.tasks && s.tasks[d].Drop? && s.tasks[d].drop.StopListener?
    ensures DropProgress(l0, LocalOf(StepTask(range, s, d, s.tasks[d], ok, ref), d), ban)
  {
    hide StepRegister; hide StepUpdate; hide GoodRegister; hide GoodUpdate;
  }

  lemma DropOfflineProgress(range: Range, s: Server, d: Device, ok: bool, ref: SessionRef, l0: Local, ban: bool)
    requires GoodDevice(s, d) && RowKeyed(s, d) && DropProgress(l0, LocalOf(s, d), ban)
    requires d in s.tasks && s.tasks[d].Drop? && s.tasks[d].drop.SetOffline?
    ensures DropProgress(l0, LocalOf(StepTask(range, s, d, s.tasks[d], ok, ref), d), ban)
  {
    hide StepRegister; hide StepUpdate; hide GoodRegister; hide GoodUpdate;
  }

  lemma DropCloseProgress(range: Range, s: Server, d: Device, ok: bool, ref: SessionRef, l0: Local, ban: bool)
    requires GoodDevice(s, d) && RowKeyed(s, d) && DropProgress(l0, LocalOf(s, d), ban)
    requires d in s.tasks && s.tasks[d].Drop? && s.tasks[d].drop.CloseChannel?
    ensures DropProgress(l0, LocalOf(StepTask(range, s, d, s.tasks[d], ok, ref), d), ban)
  {
    hide StepRegister; hide StepUpdate; hide GoodRegister; hide GoodUpdate;
  }

  lemma OwnDropProgress(range: Range, s: Server, d: Device, ok: bool, ref: SessionRef, l0: Local, ban: bool)
    requires GoodDevice(s, d) && RowKeyed(s, d) && MutuallyInverse(s.sessions)
    requires DropProgress(l0, LocalOf(s, d), ban) && d in s.tasks
    ensures DropProgress(l0, LocalOf(StepTask(range, s, d, s.tasks[d], ok, ref), d), ban)
  {
    hide StepTask; hide GoodDevice;
    match s.tasks[d].drop
    case SaveBan => DropBanProgress(range, s, d, ok, ref, l0, ban);
    case ReadSession(_) => DropReadProgress(range, s, d, ok, ref, l0, ban);
    case RemoveSession(_, _, _) => DropRemoveProgress(range, s, d, ok, ref, l0, ban);
    case StopListener(_, _, _) => DropStopProgress(range, s, d, ok, ref, l0, ban);
    case SetOffline(_, _) => DropOfflineProgress(range, s, d, ok, ref, l0, ban);
    case CloseChannel(_, _) => DropCloseProgress(range, s, d, ok, ref, l0, ban);
  }

  lemma {:induction false} DropRuns(range: Range, s: Server, labels: seq<Label>, d: Device, l0: Local, ban: bool)
    requires Inv(s) && DropProgress(l0, LocalOf(s, d), ban) && Undisturbed(range, s, labels, d)
    ensures DropProgress(l0, LocalOf(Run(range, s, labels), d), ban)
    decreases |labels|
  {
    if labels == [] {
    } else {
      hide DropProgress; hide StepTask;
      var l := labels[0];
      StepKeepsInv(range, s, l);
      if l.Advance? && l.d == d && d in s.tasks {
        assert GoodDevice(s, d);
        OwnDropProgress(range, s, d, l.ok, l.ref, l0, ban);
      } else {
        OthersLeave(range, s, l, d);
      }
      DropRuns(range, Step(range, s, l), labels[1..], d, l0, ban);
    }
  }

  /** The operations that end a session and keep the reservation: the administrator's disconnect, a
      ban, and the inactive event of the session's own channel. */
  predicate EndsSession(s: Server, l: Label, d: Device) {
    l == BeginDisconnect(d) || l == BeginBan(d) || (l.Disconnected? && RefOf(s, d) == Some(l.observed))
  }

  lemma DropBegins(range: Range, s: Server, d: Device, l: Label)
    requires Inv(s) && d !in s.tasks && SessionOf(s, d).Some? && EndsSession(s, l, d)
    ensures DropProgress(LocalOf(s, d), LocalOf(Step(range, s, l), d), l.BeginBan?)
  {
    assert GoodDevice(s, d);
    if l.Disconnected? {
      ByChannelIsCurrent(s.sessions, s.sessions.objects[l.observed].channel, d, l.observed);
    }
  }

  lemma DroppedIff(t: Server, l0: Local, d: Device)
    requires Inv(t) && d !in t.tasks && l0.session.Some? && l0.row.Some? && Dropped(l0, LocalOf(t, d))
    ensures Consistent(t, d) <==> OnlyOn(l0, l0.session.value.externalPort)
  {
    assert GoodDevice(t, d);
  }

  /** Ending the session of a device, whichever way and under any interference, leaves the device
      consistent if and only if, before, it listened on no port but the reserved one; only a ban that
      could not be saved leaves the session, and then everything is as it was. */
  lemma EndRestoresIff(range: Range, s: Server, labels: seq<Label>, d: Device, l: Label)
    requires Inv(s) && d !in s.tasks && SessionOf(s, d).Some? && EndsSession(s, l, d)
    requires Undisturbed(range, Step(range, s, l), labels, d)
    ensures RowOf(s, d).Some? && RowOf(s, d).value.externalPort == SessionOf(s, d).value.externalPort
    ensures var t := Run(range, Step(range, s, l), labels);
      d !in t.tasks ==>
        if SessionOf(t, d).None?
        then Consistent(t, d) <==> OnlyOn(LocalOf(s, d), SessionOf(s, d).value.externalPort)
        else l.BeginBan? && Kept(LocalOf(s, d), LocalOf(t, d))
  {
    var l0 := LocalOf(s, d);
    DropBegins(range, s, d, l);
    StepKeepsInv(range, s, l);
    DropRuns(range, Step(range, s, l), labels, d, l0, l.BeginBan?);
    RunKeepsInv(range, Step(range, s, l), labels);
    var t := Run(range, Step(range, s, l), labels);
    if d !in t.tasks && Dropped(l0, LocalOf(t, d)) { DroppedIff(t, l0, d); }
  }

  // Which leftovers stay ------------------------------------------------------------------------------

  /** No operation of `d` under way is going to stop `q`. */
  ghost predicate NotAbout(l: Local, q: Port) {
    l.task.Some? && l.task.value.Update? ==>
      && l.task.value.update.p != q
      && match l.task.value.update
         case ReadPort(_) => true
         case at => at.was != q
  }

  /** The device listens on `q`, which is not its reserved port. */
  ghost predicate LeftOn(l: Local, q: Port) { q in l.ports && !OnPort(l, q) && NotAbout(l, q) }

  lemma RegisterLeaves(range: Range, s: Server, d: Device, ok: bool, ref: SessionRef, q: Port)
    requires GoodDevice(s, d) && d in s.tasks && s.tasks[d].Register? && LeftOn(LocalOf(s, d), q)
    ensures var l := LocalOf(StepTask(range, s, d, s.tasks[d], ok, ref), d); q in l.ports && NotAbout(l, q)
  {
    hide Served; hide Unserved; hide PortAgrees; hide NoLeftovers; hide OnlineJustified; hide OnlyOn; hide Silent;
    hide StepUpdate; hide StepDrop; hide GoodUpdate; hide GoodDrop;
    hide Allocate; hide MarkOnline; hide MarkOffline; hide RegisterSession; hide SessionByChannel; hide Superseded;
  }

  lemma DropLeaves(range: Range, s: Server, d: Device, ok: bool, ref: SessionRef, q: Port)
    requires GoodDevice(s, d) && d in s.tasks && s.tasks[d].Drop? && LeftOn(LocalOf(s, d), q)
    ensures var l := LocalOf(StepTask(range, s, d, s.tasks[d], ok, ref), d); q in l.ports && NotAbout(l, q)
  {
    hide StepRegister; hide StepUpdate; hide GoodRegister; hide GoodUpdate;
    hide MarkOffline; hide Release; hide RemoveByChannel;
  }

  lemma UpdateLeaves(range: Range, s: Server, d: Device, ok: bool, ref: SessionRef, q: Port)
    requires GoodDevice(s, d) && d in s.tasks && s.tasks[d].Update? && LeftOn(LocalOf(s, d), q)
    ensures var l := LocalOf(StepTask(range, s, d, s.tasks[d], ok, ref), d); q in l.ports && NotAbout(l, q)
  {
    hide StepRegister; hide StepDrop; hide GoodRegister; hide GoodDrop;
    hide UpdateExternalPort;
  }

  lemma BeginLeavesOn(range: Range, s: Server, l: Label, d: Device, q: Port)
    requires !l.Advance? && q in PortsOf(s.owners, d) && NotAbout(LocalOf(s, d), q) && l != BeginUpdate(d, q)
    ensures var l' := LocalOf(Step(range, s, l), d); q in l'.ports && NotAbout(l', q)
  {
    hide SetFixedPort; hide SessionByChannel;
  }

  lemma StepLeavesOn(range: Range, s: Server, l: Label, d: Device, q: Port)
    requires Inv(s) && LeftOn(LocalOf(s, d), q) && l != BeginUpdate(d, q)
    ensures var l' := LocalOf(Step(range, s, l), d); q in l'.ports && NotAbout(l', q)
  {
    if !l.Advance? {
      BeginLeavesOn(range, s, l, d, q);
    } else if l.d in s.tasks {
      assert GoodDevice(s, l.d);
      if l.d != d {
        TaskFrame(range, s, l.d, l.ok, l.ref, d);
      } else {
        match s.tasks[d]
        case Register(_, _) => RegisterLeaves(range, s, d, l.ok, l.ref, q);
        case Drop(_) => DropLeaves(range, s, d, l.ok, l.ref, q);
        case Update(_) => UpdateLeaves(range, s, d, l.ok, l.ref, q);
      }
    }
  }

  /** The reservation of `d` is not on `q` in any state of the run, and no update of `d` to `q` begins. */
  ghost predicate Elsewhere(range: Range, s: Server, labels: seq<Label>, d: Device, q: Port)
    decreases |labels|
  {
    && !OnPort(LocalOf(s, d), q)
    && (labels != [] ==>
          labels[0] != BeginUpdate(d, q) && Elsewhere(range, Step(range, s, labels[0]), labels[1..], d, q))
  }

  lemma {:induction false} LeftoverRemains(range: Range, s: Server, labels: seq<Label>, d: Device, q: Port)
    requires Inv(s) && LeftOn(LocalOf(s, d), q) && Elsewhere(range, s, labels, d, q)
    ensures LeftOn(LocalOf(Run(range, s, labels), d), q)
    decreases |labels|
  {
    if labels == [] {
    } else {
      StepKeepsInv(range, s, labels[0]);
      StepLeavesOn(range, s, labels[0], d, q);
      LeftoverRemains(range, Step(range, s, labels[0]), labels[1..], d, q);
    }
  }

  /** A listener left on a port that is not the device's own, as after its reservation was deleted
      or moved, is never stopped by registrations, disconnects, bans, deletions or updates to other
      ports: the device stays inconsistent until its reservation is on that port or an update to it
      is tried. */
  lemma LeftoverStays(range: Range, s: Server, labels: seq<Label>, d: Device, q: Port)
    requires Inv(s) && d !in s.tasks && q in PortsOf(s.owners, d) && Elsewhere(range, s, labels, d, q)
    ensures var t := Run(range, s, labels); q in t.owners && t.owners[q] == d && !Consistent(t, d)
  {
    LeftoverRemains(range, s, labels, d, q);
    assert q in LocalOf(Run(range, s, labels), d).ports;
  }
}
