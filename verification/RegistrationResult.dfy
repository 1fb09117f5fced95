/** What a registration that goes through has put in place when its lock is free again, under any
    interference: its session, and its reservation with the target port it asked for. */
module RegistrationResult {
  import opened Wrappers
  import opened Reservations
  import opened Sessions
  import opened Listeners
  import opened DeviceLifecycle
  import opened DeviceConsistency
  import opened DeviceTheorems
  import opened PortUpdates
  import opened Restoration

  /** The reservation is online with the target port. */
  ghost predicate OnTarget(l: Local, target: int) {
    l.row.Some? && l.row.value.targetPort == target && l.row.value.online
  }

  /** A registration of `d` on `c` for `target` carries these to its end; `installed` says whether it has
      put its session in place. */
  ghost predicate Carries(l: Local, d: Device, c: Channel, target: int, installed: bool) {
    match l.task
    case None =>
      installed ==> OnTarget(l, target) && l.session == Some(ClientSession(d, c, l.row.value.externalPort, ONLINE))
    case Some(Register(own, at)) =>
      && !installed && own == c
      && (match at
          case CheckAgain(_, _) => OnTarget(l, target)
          case RetireOld(p) => OnTarget(l, target) && OnPort(l, p)
          case Install(p) => OnTarget(l, target) && OnPort(l, p)
          case UndoPort(_, _) => true
          case UndoOnline => true
          case _ => at.target == target)
    case _ => false
  }

  lemma EarlyCarries(range: Range, s: Server, d: Device, ok: bool, ref: SessionRef, c: Channel, target: int,
        installed: bool)
    requires GoodDevice(s, d) && RowKeyed(s, d) && Carries(LocalOf(s, d), d, c, target, installed)
    requires d in s.tasks && s.tasks[d].Register?
    requires var at := s.tasks[d].register;
      at.CheckActive? || at.CheckOwner? || at.CheckBan? || at.AllocatePort? || at.ProbePort? || at.BindPort?
    ensures var installed' := installed || Installs(s, Advance(d, ok, ref), d);
      Carries(LocalOf(StepTask(range, s, d, s.tasks[d], ok, ref), d), d, c, target, installed')
  {
    hide StepDrop; hide StepUpdate; hide GoodDevice; hide Allocate; hide StartPort; hide SessionByChannel; hide PortsOf;
  }

  lemma OnlineCarries(range: Range, s: Server, d: Device, ok: bool, ref: SessionRef, c: Channel, target: int,
        installed: bool)
    requires GoodDevice(s, d) && RowKeyed(s, d) && Carries(LocalOf(s, d), d, c, target, installed)
    requires d in s.tasks && s.tasks[d].Register?
    requires var at := s.tasks[d].register; at.SetOnline? || at.CheckAgain? || at.UndoPort?
    ensures var installed' := installed || Installs(s, Advance(d, ok, ref), d);
      Carries(LocalOf(StepTask(range, s, d, s.tasks[d], ok, ref), d), d, c, target, installed')
  {
    hide StepDrop; hide StepUpdate; hide GoodDrop; hide GoodUpdate; hide PortsOf; hide StopPort;
  }

  lemma LateCarries(range: Range, s: Server, d: Device, ok: bool, ref: SessionRef, c: Channel, target: int,
        installed: bool)
    requires GoodDevice(s, d) && RowKeyed(s, d) && Carries(LocalOf(s, d), d, c, target, installed)
    requires d in s.tasks && s.tasks[d].Register?
    requires var at := s.tasks[d].register; at.UndoOnline? || at.RetireOld? || at.Install?
    ensures var installed' := installed || Installs(s, Advance(d, ok, ref), d);
      Carries(LocalOf(StepTask(range, s, d, s.tasks[d], ok, ref), d), d, c, target, installed')
  {
    hide StepDrop; hide StepUpdate; hide GoodDevice; hide PortsOf; hide Superseded;
  }

  lemma OwnStepCarries(range: Range, s: Server, d: Device, ok: bool, ref: SessionRef, c: Channel, target: int,
        installed: bool)
    requires GoodDevice(s, d) && RowKeyed(s, d) && Carries(LocalOf(s, d), d, c, target, installed) && d in s.tasks
    ensures var installed' := installed || Installs(s, Advance(d, ok, ref), d);
      Carries(LocalOf(StepTask(range, s, d, s.tasks[d], ok, ref), d), d, c, target, installed')
  {
    hide StepTask; hide GoodDevice;
    var at := s.tasks[d].register;
    if at.SetOnline? || at.CheckAgain? || at.UndoPort? {
      OnlineCarries(range, s, d, ok, ref, c, target, installed);
    } else if at.UndoOnline? || at.RetireOld? || at.Install? {
      LateCarries(range, s, d, ok, ref, c, target, installed);
    } else {
      EarlyCarries(range, s, d, ok, ref, c, target, installed);
    }
  }

  lemma {:induction false} RunCarries(range: Range, s: Server, labels: seq<Label>, d: Device, c: Channel, target: int,
        installed: bool)
    requires Inv(s) && Carries(LocalOf(s, d), d, c, target, installed) && Undisturbed(range, s, labels, d)
    ensures var installed' := installed || InstalledDuring(range, s, labels, d);
      Carries(LocalOf(Run(range, s, labels), d), d, c, target, installed')
    decreases |labels|
  {
    if labels == [] {
    } else {
      hide Carries; hide StepTask;
      var l := labels[0];
      StepKeepsInv(range, s, l);
      if l.Advance? && l.d == d && d in s.tasks {
        assert GoodDevice(s, d);
        OwnStepCarries(range, s, d, l.ok, l.ref, c, target, installed);
      } else {
        OthersLeave(range, s, l, d);
      }
      RunCarries(range, Step(range, s, l), labels[1..], d, c, target, installed || Installs(s, l, d));
    }
  }

  /** A registration that installs its session leaves, whatever else goes on, an online session on its own
      channel and on the reserved port, and the reservation online with its target port, in the cache and
      but for the flag in the database. */
  lemma RegistrationStoresTarget(range: Range, s: Server, labels: seq<Label>, d: Device, c: Channel, target: int)
    requires Inv(s) && d !in s.tasks
    requires Undisturbed(range, Step(range, s, BeginRegister(d, c, target)), labels, d)
    ensures var s1 := Step(range, s, BeginRegister(d, c, target));
      var t := Run(range, s1, labels);
      d !in t.tasks && InstalledDuring(range, s1, labels, d) ==>
        && RowOf(t, d).Some? && RowOf(t, d).value.targetPort == target && RowOf(t, d).value.online
        && SessionOf(t, d) == Some(ClientSession(d, c, RowOf(t, d).value.externalPort, ONLINE))
        && d in t.reservations.repository && t.reservations.repository[d].targetPort == target
        && t.reservations.repository[d].externalPort == RowOf(t, d).value.externalPort
  {
    var s1 := Step(range, s, BeginRegister(d, c, target));
    StepKeepsInv(range, s, BeginRegister(d, c, target));
    assert Carries(LocalOf(s1, d), d, c, target, false);
    RunCarries(range, s1, labels, d, c, target, false);
    RunKeepsInv(range, s1, labels);
    var t := Run(range, s1, labels);
    if d !in t.tasks && InstalledDuring(range, s1, labels, d) {
      assert SameButOnline(t.reservations.cache[d], t.reservations.repository[d]);
    }
  }

  // Exactly when it goes through ---------------------------------------------------------------------------

  /** What refuses a registration at each of its checks, as its caller sees it. */
  ghost predicate Refuses(range: Range, s: Server, l: Label, d: Device) {
    l.Advance? && l.d == d && d in s.tasks && s.tasks[d].Register?
    && var c := s.tasks[d].c;
    match s.tasks[d].register
    case CheckActive(_) => c in s.dead
    case CheckOwner(_) => c in s.sessions.channelToDevice && s.sessions.channelToDevice[c] != d
    case CheckBan(_) => d in s.banned
    case AllocatePort(_) =>
      d !in s.reservations.cache && (!l.ok || forall p | range.Contains(p) :: Reserved(s.reservations.cache, p))
    case BindPort(_, p, _) => if p in s.owners then s.owners[p] != d else !l.ok
    case SetOnline(_, _, _) => !l.ok
    case CheckAgain(_, _) => c in s.dead
    case _ => false
  }

  ghost predicate RefusedDuring(range: Range, s: Server, labels: seq<Label>, d: Device)
    decreases |labels|
  {
    labels != [] && (Refuses(range, s, labels[0], d) || RefusedDuring(range, Step(range, s, labels[0]), labels[1..], d))
  }

  /** Whether a registration is over, and how. */
  ghost predicate Judged(l: Local, target: int, installed: bool, refused: bool) {
    match l.task
    case None => installed <==> !refused
    case Some(Register(_, at)) =>
      && !installed && (refused <==> at.UndoPort? || at.UndoOnline?)
      && (match at
          case AllocatePort(t) => t == target
          case CheckActive(t) => t == target
          case CheckOwner(t) => t == target
          case CheckBan(t) => t == target
          case ProbePort(t, _) => t == target
          case BindPort(t, _, _) => t == target
          case SetOnline(t, _, _) => t == target
          case _ => true)
    case _ => false
  }

  lemma ChecksJudged(range: Range, s: Server, d: Device, ok: bool, ref: SessionRef, target: int)
    requires MutuallyInverse(s.sessions) && d in s.tasks && s.tasks[d].Register?
    requires var at := s.tasks[d].register;
      at.CheckActive? || at.CheckOwner? || at.CheckBan? || at.ProbePort?
    requires Judged(LocalOf(s, d), target, false, false)
    ensures Judged(LocalOf(StepTask(range, s, d, s.tasks[d], ok, ref), d), target, false,
                   Refuses(range, s, Advance(d, ok, ref), d))
  {
    hide StepDrop; hide StepUpdate; hide PortsOf;
  }

  lemma AllocationJudged(range: Range, s: Server, d: Device, ok: bool, ref: SessionRef, target: int)
    requires WellFormed(s.reservations) && ValidTarget(target) && d in s.tasks && s.tasks[d].Register?
    requires s.tasks[d].register.AllocatePort? && Judged(LocalOf(s, d), target, false, false)
    ensures Judged(LocalOf(StepTask(range, s, d, s.tasks[d], ok, ref), d), target, false,
                   Refuses(range, s, Advance(d, ok, ref), d))
  {
    hide StepDrop; hide StepUpdate; hide PortsOf; hide WellFormed; hide Allocate;
    AllocatedIff(range, s.reservations, d, target, ok);
  }

  lemma BindJudged(range: Range, s: Server, d: Device, ok: bool, ref: SessionRef, target: int)
    requires GoodDevice(s, d) && d in s.tasks && s.tasks[d].Register? && ValidTarget(target)
    requires var at := s.tasks[d].register; at.BindPort? || at.SetOnline? || at.CheckAgain?
    requires Judged(LocalOf(s, d), target, false, false)
    ensures Judged(LocalOf(StepTask(range, s, d, s.tasks[d], ok, ref), d), target, false,
                   Refuses(range, s, Advance(d, ok, ref), d))
  {
    hide StepDrop; hide StepUpdate; hide PortsOf; hide GoodDrop; hide GoodUpdate; hide Save;
  }

  lemma LateJudged(range: Range, s: Server, d: Device, ok: bool, ref: SessionRef, target: int, refused: bool)
    requires d in s.tasks && s.tasks[d].Register?
    requires var at := s.tasks[d].register; at.UndoPort? || at.UndoOnline? || at.RetireOld? || at.Install?
    requires Judged(LocalOf(s, d), target, false, refused)
    ensures Judged(LocalOf(StepTask(range, s, d, s.tasks[d], ok, ref), d), target,
                   Installs(s, Advance(d, ok, ref), d), refused)
  {
    hide StepDrop; hide StepUpdate; hide PortsOf; hide StopPort; hide RegisterSession; hide Superseded;
    hide MarkOffline;
  }

  lemma StepJudged(range: Range, s: Server, d: Device, ok: bool, ref: SessionRef, target: int, installed: bool,
        refused: bool)
    requires Global(s) && GoodDevice(s, d) && d in s.tasks && ValidTarget(target)
    requires Judged(LocalOf(s, d), target, installed, refused)
    ensures var l := Advance(d, ok, ref);
      Judged(LocalOf(StepTask(range, s, d, s.tasks[d], ok, ref), d), target, installed || Installs(s, l, d),
             refused || Refuses(range, s, l, d))
  {
    hide StepTask; hide GoodDevice;
    var at := s.tasks[d].register;
    if at.AllocatePort? {
      AllocationJudged(range, s, d, ok, ref, target);
    } else if at.BindPort? || at.SetOnline? || at.CheckAgain? {
      BindJudged(range, s, d, ok, ref, target);
    } else if at.UndoPort? || at.UndoOnline? || at.RetireOld? || at.Install? {
      LateJudged(range, s, d, ok, ref, target, refused);
    } else {
      ChecksJudged(range, s, d, ok, ref, target);
    }
  }

  lemma {:induction false} RunJudged(range: Range, s: Server, labels: seq<Label>, d: Device, target: int,
        installed: bool, refused: bool)
    requires Inv(s) && ValidTarget(target) && Judged(LocalOf(s, d), target, installed, refused)
    requires Undisturbed(range, s, labels, d)
    ensures Judged(LocalOf(Run(range, s, labels), d), target, installed || InstalledDuring(range, s, labels, d),
                   refused || RefusedDuring(range, s, labels, d))
    decreases |labels|
  {
    if labels == [] {
    } else {
      hide Judged; hide StepTask; hide Installs; hide Refuses;
      var l := labels[0];
      StepKeepsInv(range, s, l);
      if l.Advance? && l.d == d && d in s.tasks {
        assert GoodDevice(s, d);
        StepJudged(range, s, d, l.ok, l.ref, target, installed, refused);
      } else {
        OthersLeave(range, s, l, d);
        NotItsStep(range, s, l, d);
      }
      RunJudged(range, Step(range, s, l), labels[1..], d, target, installed || Installs(s, l, d),
                refused || Refuses(range, s, l, d));
    }
  }

  lemma NotItsStep(range: Range, s: Server, l: Label, d: Device)
    requires !(l.Advance? && l.d == d && d in s.tasks)
    ensures !Installs(s, l, d) && !Refuses(range, s, l, d)
  {
  }

  /** A registration with a valid target port, on a channel with no other registration under way, puts its
      session in place, in every interleaving, if and only if nothing refuses it on the way: a dead
      channel, one that serves another device, a ban, no port left, a bind or a write that fails. */
  lemma RegistrationGoesThroughIff(range: Range, s: Server, labels: seq<Label>, d: Device, c: Channel, target: int)
    requires Inv(s) && d !in s.tasks && ValidTarget(target) && !Registering(s, c)
    requires Undisturbed(range, Step(range, s, BeginRegister(d, c, target)), labels, d)
    ensures var s1 := Step(range, s, BeginRegister(d, c, target));
      d !in Run(range, s1, labels).tasks ==>
        (InstalledDuring(range, s1, labels, d) <==> !RefusedDuring(range, s1, labels, d))
  {
    var s1 := Step(range, s, BeginRegister(d, c, target));
    StepKeepsInv(range, s, BeginRegister(d, c, target));
    assert Judged(LocalOf(s1, d), target, false, false);
    RunJudged(range, s1, labels, d, target, false, false);
  }
}
