/** What becomes of a session when another takes its place or it is dropped: it is offline, and its
    control channel is closed, unless the new session is on the same one. */
module ReplacedSessions {
  import opened Wrappers
  import opened Reservations
  import opened Sessions
  import opened Listeners
  import opened DeviceLifecycle
  import opened DeviceConsistency
  import opened DeviceTheorems

  /** The one step that replaces a session puts the new one in place, online, and closes exactly the
      channel of the session it replaces, if that is another channel. */
  lemma ReplacementClosesChannel(range: Range, s: Server, d: Device, ok: bool, ref: SessionRef)
    requires Inv(s) && d in s.tasks && s.tasks[d].Register? && s.tasks[d].register.Install?
    requires ref !in s.sessions.objects
    ensures var s' := Step(range, s, Advance(d, ok, ref));
      var (c, p, before) := (s.tasks[d].c, s.tasks[d].register.p, SessionOf(s, d));
      && SessionOf(s', d) == Some(ClientSession(d, c, p, ONLINE)) && RefOf(s', d) == Some(ref)
      && s'.dead == s.dead + if before.Some? && before.value.channel != c then {before.value.channel} else {}
  {
  }

  // Over runs -------------------------------------------------------------------------------------------

  /** The operation of `d` has taken the session of channel `c` away and is going to close `c`. */
  predicate Closing(s: Server, d: Device, c: Channel) {
    d in s.tasks && s.tasks[d].Drop?
    && match s.tasks[d].drop
       case StopListener(taken, _, _) => taken == c
       case SetOffline(taken, _) => taken == c
       case CloseChannel(taken, _) => taken == c
       case _ => false
  }

  predicate ClosedOrShared(s: Server, d: Device, c: Channel) {
    c in s.dead || (SessionOf(s, d).Some? && SessionOf(s, d).value.channel == c)
  }

  /** If `r` is a session of `d` but not the current one, it is offline and its channel is closed,
      about to be, or the current session's. */
  ghost predicate Retired(s: Server, d: Device, r: SessionRef) {
    Replaced(s, r, d) ==>
      && s.sessions.objects[r].status.OFFLINE?
      && (ClosedOrShared(s, d, s.sessions.objects[r].channel) || Closing(s, d, s.sessions.objects[r].channel))
  }

  /** A registration about to install its session has taken the one it replaces offline. */
  predicate Retiring(s: Server, d: Device) {
    d in s.tasks && s.tasks[d].Register? && s.tasks[d].register.Install? && SessionOf(s, d).Some? ==>
      SessionOf(s, d).value.status.OFFLINE?
  }

  lemma RegisterRetires(range: Range, s: Server, d: Device, ok: bool, ref: SessionRef, r: SessionRef)
    requires MutuallyInverse(s.sessions) && Retiring(s, d) && Retired(s, d, r) && d in s.tasks && s.tasks[d].Register?
    ensures var s' := StepTask(range, s, d, s.tasks[d], ok, ref); Retiring(s', d) && Retired(s', d, r)
  {
    hide Allocate; hide MarkOnline; hide MarkOffline; hide StartPort; hide StopPort; hide SessionByChannel;
    hide StepDrop; hide StepUpdate;
    var at := s.tasks[d].register;
    if !at.RetireOld? && !at.Install? { RegisterLeavesSessions(range, s, d, ok, ref); }
  }

  lemma DropRetires(range: Range, s: Server, d: Device, ok: bool, ref: SessionRef, r: SessionRef)
    requires MutuallyInverse(s.sessions) && GoodDevice(s, d) && Retired(s, d, r) && d in s.tasks && s.tasks[d].Drop?
    ensures var s' := StepTask(range, s, d, s.tasks[d], ok, ref); Retiring(s', d) && Retired(s', d, r)
  {
    hide MarkOffline; hide Release; hide StopPort; hide StepRegister; hide StepUpdate;
  }

  lemma UpdateRetires(range: Range, s: Server, d: Device, ok: bool, ref: SessionRef, r: SessionRef)
    requires MutuallyInverse(s.sessions) && GoodDevice(s, d) && Retired(s, d, r) && d in s.tasks && s.tasks[d].Update?
    ensures var s' := StepTask(range, s, d, s.tasks[d], ok, ref); Retiring(s', d) && Retired(s', d, r)
  {
    hide UpdateExternalPort; hide StartPort; hide StopPort; hide StepRegister; hide StepDrop;
  }

  /** A step of another device leaves the session objects of `d` alone. */
  lemma RegisterLeavesObjects(range: Range, s: Server, e: Device, ok: bool, ref: SessionRef, d: Device, r: SessionRef)
    requires MutuallyInverse(s.sessions) && e in s.tasks && s.tasks[e].Register? && e != d
    ensures var s' := StepTask(range, s, e, s.tasks[e], ok, ref);
      Replaced(s', r, d) && RefOf(s', d) == RefOf(s, d) ==>
        Replaced(s, r, d) && s'.sessions.objects[r] == s.sessions.objects[r]
  {
    hide Allocate; hide MarkOnline; hide MarkOffline; hide StartPort; hide StopPort; hide SessionByChannel;
    hide StepDrop; hide StepUpdate;
    var at := s.tasks[e].register;
    if !at.RetireOld? && !at.Install? { RegisterLeavesSessions(range, s, e, ok, ref); }
  }

  lemma OthersLeaveObjects(range: Range, s: Server, e: Device, ok: bool, ref: SessionRef, d: Device, r: SessionRef)
    requires MutuallyInverse(s.sessions) && GoodDevice(s, e) && e in s.tasks && !s.tasks[e].Register? && e != d
    ensures var s' := StepTask(range, s, e, s.tasks[e], ok, ref);
      Replaced(s', r, d) && RefOf(s', d) == RefOf(s, d) ==>
        Replaced(s, r, d) && s'.sessions.objects[r] == s.sessions.objects[r]
  {
    hide MarkOffline; hide Release; hide UpdateExternalPort; hide StartPort; hide StopPort; hide StepRegister;
  }

  lemma OtherStepRetires(range: Range, s: Server, e: Device, ok: bool, ref: SessionRef, d: Device, r: SessionRef)
    requires Inv(s) && Retiring(s, d) && Retired(s, d, r) && e in s.tasks && e != d
    ensures var s' := StepTask(range, s, e, s.tasks[e], ok, ref); Retiring(s', d) && Retired(s', d, r)
  {
    hide StepTask; hide GoodDevice;
    assert GoodDevice(s, e);
    TaskFrame(range, s, e, ok, ref, d);
    if s.tasks[e].Register? {
      RegisterLeavesObjects(range, s, e, ok, ref, d, r);
    } else {
      OthersLeaveObjects(range, s, e, ok, ref, d, r);
    }
    var s' := StepTask(range, s, e, s.tasks[e], ok, ref);
    assert LocalOf(s', d) == LocalOf(s, d);
  }

  lemma BeginRetires(range: Range, s: Server, l: Label, d: Device, r: SessionRef)
    requires Retiring(s, d) && Retired(s, d, r) && !l.Advance?
    ensures Retiring(Step(range, s, l), d) && Retired(Step(range, s, l), d, r)
  {
    hide SetFixedPort; hide SessionByChannel; hide Registering;
  }

  lemma StepRetires(range: Range, s: Server, l: Label, d: Device, r: SessionRef)
    requires Inv(s) && Retiring(s, d) && Retired(s, d, r)
    ensures Retiring(Step(range, s, l), d) && Retired(Step(range, s, l), d, r)
  {
    hide StepTask; hide Retiring; hide Retired; hide GoodDevice;
    assert GoodDevice(s, d);
    if !l.Advance? {
      BeginRetires(range, s, l, d, r);
    } else if l.d in s.tasks {
      if l.d != d {
        OtherStepRetires(range, s, l.d, l.ok, l.ref, d, r);
      } else {
        match s.tasks[d]
        case Register(_, _) => RegisterRetires(range, s, d, l.ok, l.ref, r);
        case Drop(_) => DropRetires(range, s, d, l.ok, l.ref, r);
        case Update(_) => UpdateRetires(range, s, d, l.ok, l.ref, r);
      }
    }
  }

  lemma {:induction false} RunRetires(range: Range, s: Server, labels: seq<Label>, d: Device, r: SessionRef)
    requires Inv(s) && Retiring(s, d) && Retired(s, d, r)
    ensures Retired(Run(range, s, labels), d, r)
    decreases |labels|
  {
    if labels == [] {
    } else {
      StepKeepsInv(range, s, labels[0]);
      StepRetires(range, s, labels[0], d, r);
      RunRetires(range, Step(range, s, labels[0]), labels[1..], d, r);
    }
  }

  /** After any run from start-up, for every device whose lock is free: every session it ever had and
      has no longer is offline, and its control channel is closed or the current session's. */
  lemma ReplacedSessionsAreClosed(range: Range, repository: Table, banned: set<Device>, labels: seq<Label>, d: Device)
    requires Keyed(repository) && UniquePorts(repository)
    ensures var t := Run(range, Started(repository, banned), labels);
      d !in t.tasks ==> forall r | Replaced(t, r, d) ::
        t.sessions.objects[r].status.OFFLINE? && ClosedOrShared(t, d, t.sessions.objects[r].channel)
  {
    var s := Started(repository, banned);
    StartedInv(repository, banned);
    var t := Run(range, s, labels);
    forall r | Replaced(t, r, d) && d !in t.tasks
      ensures t.sessions.objects[r].status.OFFLINE? && ClosedOrShared(t, d, t.sessions.objects[r].channel)
    {
      RunRetires(range, s, labels, d, r);
    }
  }
}
