/** Port updates: all or nothing under any interference, exactly when, and the race of two devices
    for one port. */
module PortUpdates {
  import opened Wrappers
  import opened Reservations
  import opened Sessions
  import opened Listeners
  import opened DeviceLifecycle
  import opened DeviceConsistency
  import opened DeviceTheorems

  // Outcomes -------------------------------------------------------------------------------

  /** Row, session and listeners are what they were; the lock is not part of it. */
  ghost predicate Untouched(l0: Local, l: Local) {
    l.row == l0.row && l.session == l0.session && l.ref == l0.ref && l.ports == l0.ports && l.banned == l0.banned
  }

  /** Row, session and listener have all moved to `p`; the old port is not listened on any more,
      and the new one is if the device was online. */
  ghost predicate AllMoved(l0: Local, l: Local, p: Port, online: bool) {
    && l0.row.Some? && l.row == Some(l0.row.value.(externalPort := p))
    && SessionMoved(l0, l, p)
    && l.ref == l0.ref && l.banned == l0.banned
    && (forall q :: q in l.ports <==> (q in l0.ports && q != l0.row.value.externalPort) || (online && q == p))
    && (online ==> l0.session.Some?)
  }

  ghost predicate SessionMoved(l0: Local, l: Local, p: Port) {
    l.session == if l0.session.Some? then Some(l0.session.value.(externalPort := p)) else None
  }

  /** The write of the update of `d` goes through: what a caller is told as success. */
  predicate Commits(s: Server, l: Label, d: Device) {
    && l.Advance? && l.d == d && l.ok && d in s.tasks && s.tasks[d].Update? && s.tasks[d].update.SavePort?
    && !Reserved(s.reservations.cache, s.tasks[d].update.p)
  }

  predicate CommittedDuring(range: Range, s: Server, labels: seq<Label>, d: Device)
    decreases |labels|
  {
    labels != [] && (Commits(s, labels[0], d) || CommittedDuring(range, Step(range, s, labels[0]), labels[1..], d))
  }

  /** All has moved, and if the session is still live, the new port is listened on. */
  ghost predicate Moved(l0: Local, l: Local, p: Port, deadNow: set<Channel>) {
    && (AllMoved(l0, l, p, false) || AllMoved(l0, l, p, true))
    && (LiveAt(l, deadNow) ==> p in l.ports)
  }

  /** On success all has moved, on failure nothing has. */
  ghost predicate AllOrNothing(l0: Local, l: Local, p: Port, deadNow: set<Channel>, committed: bool) {
    if committed then Moved(l0, l, p, deadNow) else Untouched(l0, l)
  }

  /** The device has a session whose channel is not dead. */
  ghost predicate LiveAt(l0: Local, dead: set<Channel>) { l0.session.Some? && l0.session.value.channel !in dead }

  /** The one other way: the device already listened on `p`, which is not its port, and undoing the
      update stopped that listener. */
  ghost predicate LostListener(l0: Local, l: Local, p: Port, dead: set<Channel>) {
    && l.row == l0.row && l.session == l0.session && l.ref == l0.ref && l.banned == l0.banned
    && p in l0.ports && !OnPort(l0, p) && LiveAt(l0, dead)
    && (forall q :: q in l.ports <==> q in l0.ports && q != p)
  }

  // Progress --------------------------------------------------------------------------------

  ghost predicate TentativelyBound(l0: Local, l: Local, p: Port, online: bool, dead: set<Channel>) {
    && l.ref == l0.ref && l.banned == l0.banned && (online ==> LiveAt(l0, dead))
    && (forall q :: q in l.ports <==> q in l0.ports || (online && q == p))
  }

  /** How far an update of `d` to `p`, begun in `l0` when the channels of `dead` were dead, has got;
      `committed` says whether its write has gone through. */
  ghost predicate UpdateProgress(range: Range, l0: Local, l: Local, p: Port, dead: set<Channel>, committed: bool) {
    match l.task
    case None =>
      if committed then AllMoved(l0, l, p, false) || AllMoved(l0, l, p, true)
      else Untouched(l0, l) || LostListener(l0, l, p, dead)
    case Some(Update(at)) =>
      && at.p == p && (committed <==> at.MoveSession? || at.StopOld?) && (at.ReadPort? || range.Contains(p))
      && (match at
          case ReadPort(_) => Untouched(l0, l)
          case CheckReserved(was, _) => Untouched(l0, l)
          case ReadOnline(was, _) => Untouched(l0, l)
          case BindNew(was, _, session, online) => Untouched(l0, l) && (online ==> LiveAt(l0, dead))
          case SavePort(was, _, session, online) =>
            OnPort(l0, was) && l.row == l0.row && l.session == l0.session && TentativelyBound(l0, l, p, online, dead)
          case UndoBind(was, _) =>
            OnPort(l0, was) && l.row == l0.row && l.session == l0.session && TentativelyBound(l0, l, p, true, dead)
          case MoveSession(was, _, session, online) =>
            && OnPort(l0, was) && l.row == Some(l0.row.value.(externalPort := p)) && l.session == l0.session
            && TentativelyBound(l0, l, p, online, dead)
          case StopOld(was, _, online) =>
            && OnPort(l0, was) && l.row == Some(l0.row.value.(externalPort := p)) && SessionMoved(l0, l, p)
            && TentativelyBound(l0, l, p, online, dead))
    case _ => false
  }

  lemma ReadsProgress(range: Range, s: Server, d: Device, ok: bool, ref: SessionRef, l0: Local, p: Port,
        dead: set<Channel>, committed: bool)
    requires GoodDevice(s, d) && dead <= s.dead && UpdateProgress(range, l0, LocalOf(s, d), p, dead, committed)
    requires d in s.tasks && s.tasks[d].Update? && (s.tasks[d].update.ReadPort? || s.tasks[d].update.CheckReserved?)
    ensures var committed' := committed || Commits(s, Advance(d, ok, ref), d);
      UpdateProgress(range, l0, LocalOf(StepTask(range, s, d, s.tasks[d], ok, ref), d), p, dead, committed')
  {
    hide StepRegister; hide StepDrop; hide GoodRegister; hide GoodDrop;
  }

  lemma OnlineProgress(range: Range, s: Server, d: Device, ok: bool, ref: SessionRef, l0: Local, p: Port,
        dead: set<Channel>, committed: bool)
    requires GoodDevice(s, d) && dead <= s.dead && UpdateProgress(range, l0, LocalOf(s, d), p, dead, committed)
    requires d in s.tasks && s.tasks[d].Update? && s.tasks[d].update.ReadOnline?
    ensures var committed' := committed || Commits(s, Advance(d, ok, ref), d);
      UpdateProgress(range, l0, LocalOf(StepTask(range, s, d, s.tasks[d], ok, ref), d), p, dead, committed')
  {
    hide StepRegister; hide StepDrop; hide GoodRegister; hide GoodDrop;
  }

  lemma BindProgress(range: Range, s: Server, d: Device, ok: bool, ref: SessionRef, l0: Local, p: Port,
        dead: set<Channel>, committed: bool)
    requires GoodDevice(s, d) && dead <= s.dead && UpdateProgress(range, l0, LocalOf(s, d), p, dead, committed)
    requires d in s.tasks && s.tasks[d].Update? && s.tasks[d].update.BindNew?
    ensures var committed' := committed || Commits(s, Advance(d, ok, ref), d);
      UpdateProgress(range, l0, LocalOf(StepTask(range, s, d, s.tasks[d], ok, ref), d), p, dead, committed')
  {
    hide StepRegister; hide StepDrop; hide GoodRegister; hide GoodDrop;
    var s' := StepTask(range, s, d, s.tasks[d], ok, ref);
    if d !in s'.tasks { assert LocalOf(s', d).ports == LocalOf(s, d).ports; }
  }

  lemma SaveProgress(range: Range, s: Server, d: Device, ok: bool, ref: SessionRef, l0: Local, p: Port,
        dead: set<Channel>, committed: bool)
    requires GoodDevice(s, d) && dead <= s.dead && UpdateProgress(range, l0, LocalOf(s, d), p, dead, committed)
    requires RowKeyed(s, d)
    requires d in s.tasks && s.tasks[d].Update? && s.tasks[d].update.SavePort?
    ensures var committed' := committed || Commits(s, Advance(d, ok, ref), d);
      UpdateProgress(range, l0, LocalOf(StepTask(range, s, d, s.tasks[d], ok, ref), d), p, dead, committed')
  {
    hide StepRegister; hide StepDrop; hide GoodRegister; hide GoodDrop;
    var s' := StepTask(range, s, d, s.tasks[d], ok, ref);
    if d !in s'.tasks {
      assert forall q :: q in LocalOf(s', d).ports <==> q in l0.ports;
      assert LocalOf(s', d).ports == l0.ports;
    }
  }

  lemma UndoProgress(range: Range, s: Server, d: Device, ok: bool, ref: SessionRef, l0: Local, p: Port,
        dead: set<Channel>, committed: bool)
    requires GoodDevice(s, d) && dead <= s.dead && UpdateProgress(range, l0, LocalOf(s, d), p, dead, committed)
    requires d in s.tasks && s.tasks[d].Update? && s.tasks[d].update.UndoBind?
    ensures var committed' := committed || Commits(s, Advance(d, ok, ref), d);
      UpdateProgress(range, l0, LocalOf(StepTask(range, s, d, s.tasks[d], ok, ref), d), p, dead, committed')
  {
    hide StepRegister; hide StepDrop; hide GoodRegister; hide GoodDrop;
    var s' := StepTask(range, s, d, s.tasks[d], ok, ref);
    assert TentativelyBound(l0, LocalOf(s, d), p, true, dead);
    assert forall q :: q in LocalOf(s', d).ports <==> q in LocalOf(s, d).ports && q != p;
    if p !in l0.ports {
      assert forall q :: q in LocalOf(s', d).ports <==> q in l0.ports;
      assert LocalOf(s', d).ports == l0.ports;
    } else {
      assert LostListener(l0, LocalOf(s', d), p, dead);
    }
  }

  lemma MoveProgress(range: Range, s: Server, d: Device, ok: bool, ref: SessionRef, l0: Local, p: Port,
        dead: set<Channel>, committed: bool)
    requires GoodDevice(s, d) && dead <= s.dead && UpdateProgress(range, l0, LocalOf(s, d), p, dead, committed)
    requires d in s.tasks && s.tasks[d].Update? && s.tasks[d].update.MoveSession?
    ensures var committed' := committed || Commits(s, Advance(d, ok, ref), d);
      UpdateProgress(range, l0, LocalOf(StepTask(range, s, d, s.tasks[d], ok, ref), d), p, dead, committed')
  {
    hide StepRegister; hide StepDrop; hide GoodRegister; hide GoodDrop;
  }

  lemma StopProgress(range: Range, s: Server, d: Device, ok: bool, ref: SessionRef, l0: Local, p: Port,
        dead: set<Channel>, committed: bool)
    requires GoodDevice(s, d) && dead <= s.dead && UpdateProgress(range, l0, LocalOf(s, d), p, dead, committed)
    requires d in s.tasks && s.tasks[d].Update? && s.tasks[d].update.StopOld?
    ensures var committed' := committed || Commits(s, Advance(d, ok, ref), d);
      UpdateProgress(range, l0, LocalOf(StepTask(range, s, d, s.tasks[d], ok, ref), d), p, dead, committed')
  {
    hide StepRegister; hide StepDrop; hide GoodRegister; hide GoodDrop;
    var online := s.tasks[d].update.online;
    var l' := LocalOf(StepTask(range, s, d, s.tasks[d], ok, ref), d);
    assert forall q :: q in l'.ports <==> q in LocalOf(s, d).ports && q != s.tasks[d].update.was;
    assert AllMoved(l0, l', p, online);
  }

  lemma OwnStepProgress(range: Range, s: Server, d: Device, ok: bool, ref: SessionRef, l0: Local, p: Port,
        dead: set<Channel>, committed: bool)
    requires GoodDevice(s, d) && dead <= s.dead && UpdateProgress(range, l0, LocalOf(s, d), p, dead, committed)
    requires RowKeyed(s, d)
    requires d in s.tasks && s.tasks[d].Update?
    ensures var committed' := committed || Commits(s, Advance(d, ok, ref), d);
      UpdateProgress(range, l0, LocalOf(StepTask(range, s, d, s.tasks[d], ok, ref), d), p, dead, committed')
  {
    hide UpdateProgress; hide GoodDevice;
    match s.tasks[d].update
    case ReadOnline(_, _) => OnlineProgress(range, s, d, ok, ref, l0, p, dead, committed);
    case BindNew(_, _, _, _) => BindProgress(range, s, d, ok, ref, l0, p, dead, committed);
    case SavePort(_, _, _, _) => SaveProgress(range, s, d, ok, ref, l0, p, dead, committed);
    case UndoBind(_, _) => UndoProgress(range, s, d, ok, ref, l0, p, dead, committed);
    case MoveSession(_, _, _, _) => MoveProgress(range, s, d, ok, ref, l0, p, dead, committed);
    case StopOld(_, _, _) => StopProgress(range, s, d, ok, ref, l0, p, dead, committed);
    case _ => ReadsProgress(range, s, d, ok, ref, l0, p, dead, committed);
  }

  // Interference ------------------------------------------------------------------------------

  /** The device whose lock a label wants. */
  function Wants(s: Server, l: Label): Option<Device> {
    match l
    case Advance(_, _, _) => None
    case ChannelDies(_) => None
    case Disconnected(observed) =>
      if observed in s.sessions.objects then Some(s.sessions.objects[observed].deviceId) else None
    case _ => Some(l.d)
  }

  /** Once the lock of `d` is free, nothing takes it again; everything else may happen. */
  predicate Undisturbed(range: Range, s: Server, labels: seq<Label>, d: Device)
    decreases |labels|
  {
    labels != [] ==>
      && (d in s.tasks || Wants(s, labels[0]) != Some(d))
      && Undisturbed(range, Step(range, s, labels[0]), labels[1..], d)
  }

  lemma BeginLeaves(range: Range, s: Server, l: Label, d: Device)
    requires WellFormed(s.reservations) && !l.Advance? && (d in s.tasks || Wants(s, l) != Some(d))
    ensures SameFor(s, Step(range, s, l), d)
  {
  }

  /** Only the operation holding the lock of `d`, or one that takes it, touches what concerns `d`. */
  lemma OthersLeave(range: Range, s: Server, l: Label, d: Device)
    requires Inv(s) && !(l.Advance? && l.d == d && d in s.tasks) && (d in s.tasks || Wants(s, l) != Some(d))
    ensures SameFor(s, Step(range, s, l), d)
  {
    match l
    case Advance(e, ok, ref) =>
      if e in s.tasks {
        assert GoodDevice(s, e);
        TaskFrame(range, s, e, ok, ref, d);
      }
    case _ => BeginLeaves(range, s, l, d);
  }

  lemma {:induction false} UpdateRuns(range: Range, s: Server, labels: seq<Label>, d: Device, l0: Local, p: Port,
        dead: set<Channel>, committed: bool)
    requires Inv(s) && dead <= s.dead && UpdateProgress(range, l0, LocalOf(s, d), p, dead, committed)
    requires Undisturbed(range, s, labels, d)
    ensures var committed' := committed || CommittedDuring(range, s, labels, d);
      UpdateProgress(range, l0, LocalOf(Run(range, s, labels), d), p, dead, committed')
    decreases |labels|
  {
    if labels == [] {
    } else {
      var l := labels[0];
      var s' := Step(range, s, l);
      StepKeepsInv(range, s, l);
      DeadStay(range, s, l);
      if l.Advance? && l.d == d && d in s.tasks {
        assert GoodDevice(s, d);
        OwnStepProgress(range, s, d, l.ok, l.ref, l0, p, dead, committed);
      } else {
        OthersLeave(range, s, l, d);
      }
      UpdateRuns(range, s', labels[1..], d, l0, p, dead, committed || Commits(s, l, d));
    }
  }

  lemma DeadStay(range: Range, s: Server, l: Label)
    ensures s.dead <= Step(range, s, l).dead
  {
    hide Allocate; hide MarkOnline; hide MarkOffline; hide Release; hide UpdateExternalPort; hide SetFixedPort;
    hide StartPort; hide StopPort; hide RegisterSession; hide RemoveByChannel; hide SessionByChannel; hide Registering;
  }

  // All or nothing ------------------------------------------------------------------------------

  /** Between operations a live session is listened for on the reserved port. */
  lemma LiveIsServed(t: Server, l0: Local, d: Device, p: Port)
    requires Inv(t) && d !in t.tasks && (AllMoved(l0, LocalOf(t, d), p, false) || AllMoved(l0, LocalOf(t, d), p, true))
    ensures Moved(l0, LocalOf(t, d), p, t.dead)
  {
    assert GoodDevice(t, d);
  }

  /** Every way an update of `d` to `p` can end, whatever the rest of the server does meanwhile and
      whatever happened to `d` before: moved if its write went through, and otherwise untouched,
      but for a listener it had on `p` before. */
  lemma UpdateOutcomes(range: Range, s: Server, d: Device, p: Port, labels: seq<Label>)
    requires Inv(s) && d !in s.tasks
    requires Undisturbed(range, Step(range, s, BeginUpdate(d, p)), labels, d)
    ensures var s1 := Step(range, s, BeginUpdate(d, p));
            var t := Run(range, s1, labels);
            var (l0, l) := (LocalOf(s, d), LocalOf(t, d));
            d !in t.tasks ==>
              || AllOrNothing(l0, l, p, t.dead, CommittedDuring(range, s1, labels, d))
              || (!CommittedDuring(range, s1, labels, d) && LostListener(l0, l, p, s.dead))
  {
    var s' := Step(range, s, BeginUpdate(d, p));
    StepKeepsInv(range, s, BeginUpdate(d, p));
    assert Untouched(LocalOf(s, d), LocalOf(s', d));
    UpdateRuns(range, s', labels, d, LocalOf(s, d), p, s.dead, false);
    RunKeepsInv(range, s', labels);
    var t := Run(range, s', labels);
    if d !in t.tasks && CommittedDuring(range, s', labels, d) { LiveIsServed(t, LocalOf(s, d), d, p); }
  }

  /** Unless the device already listens on `p` without owning it, an update whose write goes through
      ends with row, session and listener all moved, and any other with all of them as they were,
      the tentative listener gone. */
  lemma UpdatePortIsAllOrNothing(range: Range, s: Server, d: Device, p: Port, labels: seq<Label>)
    requires Inv(s) && d !in s.tasks
    requires p !in PortsOf(s.owners, d) || OnPort(LocalOf(s, d), p) || !LiveAt(LocalOf(s, d), s.dead)
    requires Undisturbed(range, Step(range, s, BeginUpdate(d, p)), labels, d)
    ensures var s1 := Step(range, s, BeginUpdate(d, p));
            var t := Run(range, s1, labels);
            d !in t.tasks ==>
              AllOrNothing(LocalOf(s, d), LocalOf(t, d), p, t.dead, CommittedDuring(range, s1, labels, d))
  {
    UpdateOutcomes(range, s, d, p, labels);
  }

  /** The update that goes wrong: the bind reuses the listener, the write fails, the undo stops it. */
  function FailingUpdate(d: Device): seq<Label> {
    [Advance(d, true, 0), Advance(d, true, 0), Advance(d, true, 0),
     Advance(d, true, 0), Advance(d, false, 0), Advance(d, true, 0)]
  }

  /** The checks of `updatePort` that a call has to pass. */
  ghost predicate PassesChecks(range: Range, s: Server, d: Device, p: Port) {
    range.Contains(p) && RowOf(s, d).Some? && RowOf(s, d).value.externalPort != p && !Reserved(s.reservations.cache, p)
  }

  lemma ReadsPass(range: Range, s: Server, d: Device, p: Port)
    requires Inv(s) && d !in s.tasks && PassesChecks(range, s, d, p) && LiveAt(LocalOf(s, d), s.dead)
    ensures var was := RowOf(s, d).value.externalPort;
      var s1 := Goto(s, d, Update(ReadPort(p)));
      var s2 := Goto(s, d, Update(CheckReserved(was, p)));
      var s3 := Goto(s, d, Update(ReadOnline(was, p)));
      && Step(range, s, BeginUpdate(d, p)) == s1
      && Step(range, s1, Advance(d, true, 0)) == s2
      && Step(range, s2, Advance(d, true, 0)) == s3
      && Step(range, s3, Advance(d, true, 0)) == Goto(s, d, Update(BindNew(was, p, RefOf(s, d), true)))
  {
    hide StepRegister; hide StepDrop;
    assert GoodDevice(s, d);
  }

  lemma BindReuses(range: Range, s: Server, d: Device, was: Port, p: Port, session: Option<SessionRef>)
    requires p in PortsOf(s.owners, d) && d in s.reservations.cache && !Reserved(s.reservations.cache, p)
    requires range.Contains(p) && s.reservations.cache[d].externalPort != p
    ensures var s4 := Goto(s, d, Update(BindNew(was, p, session, true)));
      var s5 := Goto(s, d, Update(SavePort(was, p, session, true)));
      var s6 := Goto(s, d, Update(UndoBind(was, p)));
      && Step(range, s4, Advance(d, true, 0)) == s5
      && Step(range, s5, Advance(d, false, 0)) == s6
      && Step(range, s6, Advance(d, true, 0)) == s6.(owners := s.owners - {p}, tasks := s6.tasks - {d})
  {
    hide StepRegister; hide StepDrop;
  }

  lemma {:induction false} AdvancesUndisturbed(range: Range, s: Server, labels: seq<Label>, d: Device)
    requires forall i | 0 <= i < |labels| :: labels[i].Advance?
    ensures Undisturbed(range, s, labels, d)
    decreases |labels|
  {
    if labels == [] {
    } else {
      AdvancesUndisturbed(range, Step(range, s, labels[0]), labels[1..], d);
    }
  }

  lemma ThreeSteps(range: Range, s: Server, labels: seq<Label>)
    requires |labels| >= 3
    ensures Run(range, s, labels) ==
              Run(range, Step(range, Step(range, Step(range, s, labels[0]), labels[1]), labels[2]), labels[3..])
  {
    hide Step;
    assert labels[1..][1..] == labels[2..] && labels[2..][1..] == labels[3..];
    var s1 := Step(range, s, labels[0]);
    assert Run(range, s, labels) == Run(range, s1, labels[1..]);
    assert Run(range, s1, labels[1..]) == Run(range, Step(range, s1, labels[1]), labels[2..]);
  }

  /** At every such state the failing update loses the listener. */
  lemma FailingUpdateLosesListener(range: Range, s: Server, d: Device, p: Port)
    requires Inv(s) && d !in s.tasks && PassesChecks(range, s, d, p)
    requires p in PortsOf(s.owners, d) && LiveAt(LocalOf(s, d), s.dead)
    ensures var s1 := Step(range, s, BeginUpdate(d, p));
      var t := Run(range, s1, FailingUpdate(d));
      && Undisturbed(range, s1, FailingUpdate(d), d)
      && d !in t.tasks && LostListener(LocalOf(s, d), LocalOf(t, d), p, s.dead)
      && forall committed :: !AllOrNothing(LocalOf(s, d), LocalOf(t, d), p, t.dead, committed)
  {
    hide Step; hide Undisturbed; hide Good; hide Global;
    var labels := FailingUpdate(d);
    var s1 := Step(range, s, BeginUpdate(d, p));
    AdvancesUndisturbed(range, s1, labels, d);
    ReadsPass(range, s, d, p);
    BindReuses(range, s, d, RowOf(s, d).value.externalPort, p, RefOf(s, d));
    ThreeSteps(range, s1, labels);
    var s4 := Goto(s, d, Update(BindNew(RowOf(s, d).value.externalPort, p, RefOf(s, d), true)));
    ThreeSteps(range, s4, labels[3..]);
    var t := Run(range, s1, labels);
    LostIsNeither(LocalOf(s, d), LocalOf(t, d), p, s.dead, t.dead);
  }

  lemma LostIsNeither(l0: Local, l: Local, p: Port, dead: set<Channel>, deadNow: set<Channel>)
    requires LostListener(l0, l, p, dead)
    ensures !AllOrNothing(l0, l, p, deadNow, false) && !AllOrNothing(l0, l, p, deadNow, true)
  {
    assert p in l0.ports && p !in l.ports;
  }

  /** The run of an update of `d` to `p` ends, if it does, all or nothing as its write decides. */
  ghost predicate EndsAllOrNothing(range: Range, s: Server, d: Device, p: Port, labels: seq<Label>) {
    var s1 := Step(range, s, BeginUpdate(d, p));
    var t := Run(range, s1, labels);
    d !in t.tasks ==> AllOrNothing(LocalOf(s, d), LocalOf(t, d), p, t.dead, CommittedDuring(range, s1, labels, d))
  }

  /** So does every undisturbed one from here. */
  ghost predicate AlwaysAllOrNothing(range: Range, s: Server, d: Device, p: Port) {
    forall labels | Undisturbed(range, Step(range, s, BeginUpdate(d, p)), labels, d) ::
      EndsAllOrNothing(range, s, d, p, labels)
  }

  /** A call that passes its checks is all or nothing, in every interleaving and for every failure,
      if and only if the device is not online or does not listen on the new port already. */
  lemma AllOrNothingIff(range: Range, s: Server, d: Device, p: Port)
    requires Inv(s) && d !in s.tasks && PassesChecks(range, s, d, p)
    ensures AlwaysAllOrNothing(range, s, d, p) <==> p !in PortsOf(s.owners, d) || !LiveAt(LocalOf(s, d), s.dead)
  {
    if p !in PortsOf(s.owners, d) || !LiveAt(LocalOf(s, d), s.dead) {
      forall labels | Undisturbed(range, Step(range, s, BeginUpdate(d, p)), labels, d)
        ensures EndsAllOrNothing(range, s, d, p, labels)
      {
        UpdatePortIsAllOrNothing(range, s, d, p, labels);
      }
    } else {
      FailingUpdateLosesListener(range, s, d, p);
      assert !EndsAllOrNothing(range, s, d, p, FailingUpdate(d));
    }
  }

  // Races -------------------------------------------------------------------------------------

  /** Of several devices after one port at most one holds it: as a reservation, and, between
      operations, as a session's port. */
  lemma AtMostOneWins(s: Server, d: Device, e: Device, p: Port)
    requires Inv(s) && d != e
    ensures !(RowOf(s, d).Some? && RowOf(s, e).Some?
        && RowOf(s, d).value.externalPort == p == RowOf(s, e).value.externalPort)
    ensures d !in s.tasks && e !in s.tasks && SessionOf(s, d).Some? && SessionOf(s, e).Some? ==>
              SessionOf(s, d).value.externalPort != SessionOf(s, e).value.externalPort
  {
    assert GoodDevice(s, d) && GoodDevice(s, e);
  }

  /** Both devices begin to move to `p`. */
  function Race(range: Range, s: Server, d: Device, e: Device, p: Port): Server {
    Step(range, Step(range, s, BeginUpdate(d, p)), BeginUpdate(e, p))
  }

  lemma RacersBegin(range: Range, s: Server, d: Device, e: Device, p: Port)
    requires Inv(s) && d != e && d !in s.tasks && e !in s.tasks
    ensures var r := Race(range, s, d, e, p);
      && Inv(r) && r.dead == s.dead
      && UpdateProgress(range, LocalOf(s, d), LocalOf(r, d), p, s.dead, false)
      && UpdateProgress(range, LocalOf(s, e), LocalOf(r, e), p, s.dead, false)
  {
    StepKeepsInv(range, s, BeginUpdate(d, p));
    StepKeepsInv(range, Step(range, s, BeginUpdate(d, p)), BeginUpdate(e, p));
  }

  /** Two updates to one port, step by step in any order with everything else that goes on: when both
      are over, each has moved if its write went through and is untouched otherwise, and at most one
      write did; so the loser has not taken the winner's listener with it. */
  lemma RaceHasOneWinner(range: Range, s: Server, labels: seq<Label>, d: Device, e: Device, p: Port)
    requires Inv(s) && d != e && d !in s.tasks && e !in s.tasks
    requires p !in PortsOf(s.owners, d) && p !in PortsOf(s.owners, e)
    requires Undisturbed(range, Race(range, s, d, e, p), labels, d)
        && Undisturbed(range, Race(range, s, d, e, p), labels, e)
    ensures var r := Race(range, s, d, e, p);
      var t := Run(range, r, labels);
      d !in t.tasks && e !in t.tasks ==>
        && AllOrNothing(LocalOf(s, d), LocalOf(t, d), p, t.dead, CommittedDuring(range, r, labels, d))
        && AllOrNothing(LocalOf(s, e), LocalOf(t, e), p, t.dead, CommittedDuring(range, r, labels, e))
        && !(CommittedDuring(range, r, labels, d) && CommittedDuring(range, r, labels, e))
        && (CommittedDuring(range, r, labels, d) && LiveAt(LocalOf(t, d), t.dead) ==> p in t.owners && t.owners[p] == d)
  {
    hide Race; hide UpdateProgress; hide Step; hide Inv;
    var r := Race(range, s, d, e, p);
    RacersBegin(range, s, d, e, p);
    RunKeepsInv(range, r, labels);
    var t := Run(range, r, labels);
    if d !in t.tasks && e !in t.tasks {
      RacerEnds(range, s, r, labels, d, p);
      RacerEnds(range, s, r, labels, e, p);
      AtMostOneWins(t, d, e, p);
    }
  }

  /** One racer, with the other as part of the interference. */
  lemma RacerEnds(range: Range, s: Server, r: Server, labels: seq<Label>, d: Device, p: Port)
    requires Inv(r) && r.dead == s.dead && p !in PortsOf(s.owners, d)
    requires UpdateProgress(range, LocalOf(s, d), LocalOf(r, d), p, s.dead, false) && Undisturbed(range, r, labels, d)
    requires d !in Run(range, r, labels).tasks
    ensures var t := Run(range, r, labels);
      AllOrNothing(LocalOf(s, d), LocalOf(t, d), p, t.dead, CommittedDuring(range, r, labels, d))
  {
    UpdateRuns(range, r, labels, d, LocalOf(s, d), p, s.dead, false);
    RunKeepsInv(range, r, labels);
    var t := Run(range, r, labels);
    if CommittedDuring(range, r, labels, d) { LiveIsServed(t, LocalOf(s, d), d, p); }
  }
}
