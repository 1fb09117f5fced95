/** Results about whole runs of the device lifecycle. */
module DeviceTheorems {
  import opened Wrappers
  import opened Reservations
  import opened Sessions
  import opened Listeners
  import opened DeviceLifecycle
  import opened DeviceConsistency

  // 1. Every interleaving ------------------------------------------------------------------

  lemma StartedInv(repository: Table, banned: set<Device>)
    requires Keyed(repository) && UniquePorts(repository)
    ensures Inv(Started(repository, banned))
  {
    var s := Started(repository, banned);
    forall d
      ensures GoodDevice(s, d)
    {
    }
  }

  lemma {:induction false} RunKeepsInv(range: Range, s: Server, labels: seq<Label>)
    requires Inv(s)
    ensures Inv(Run(range, s, labels))
    decreases |labels|
  {
    if labels == [] {
    } else {
      StepKeepsInv(range, s, labels[0]);
      RunKeepsInv(range, Step(range, s, labels[0]), labels[1..]);
    }
  }

  // 2. Exactly when consistency is lost ------------------------------------------------------

  /** The registration holding the lock of `d` is about to fail without undoing its bind. */
  predicate AboutToAbandon(s: Server, d: Device, ok: bool) {
    d in s.tasks && s.tasks[d].Register?
    && match s.tasks[d].register
       case SetOnline(target, p, probe) =>
         (!ValidTarget(target) || d !in s.reservations.cache || !ok) && probe.previouslyActive
       case CheckAgain(p, probe) => s.tasks[d].c in s.dead && probe.previouslyActive
       case _ => false
  }

  /** A registration that fails after its bind and trusts `previouslyActive` leaves its device
      consistent if and only if the device has a session and listens on no port but its own. */
  lemma AbandonIsConsistentIff(range: Range, s: Server, d: Device, ok: bool, ref: SessionRef)
    requires Inv(s) && AboutToAbandon(s, d, ok)
    ensures var s' := Step(range, s, Advance(d, ok, ref));
            && d !in s'.tasks
            && (Consistent(s', d) <==> SessionOf(s, d).Some? && OnlyOn(LocalOf(s, d), s.tasks[d].register.p))
  {
    assert GoodDevice(s, d);
    var s' := Step(range, s, Advance(d, ok, ref));
    StepKeepsInv(range, s, Advance(d, ok, ref));
    assert GoodDevice(s', d);
    var p := s.tasks[d].register.p;
    assert p in LocalOf(s', d).ports && LocalOf(s', d).ports == LocalOf(s, d).ports;
    assert OnPort(LocalOf(s', d), p) && SessionOf(s', d) == SessionOf(s, d);
  }

  /** Only such a registration ever adds to the orphaned devices. */
  lemma OrphanedByAbandonOnly(range: Range, s: Server, d: Device, ok: bool, ref: SessionRef)
    requires d in s.tasks && !AboutToAbandon(s, d, ok)
    ensures StepTask(range, s, d, s.tasks[d], ok, ref).orphaned == s.orphaned
  {
    match s.tasks[d]
    case Register(c, at) =>
    case Drop(at) =>
    case Update(at) =>
  }

  lemma AbandonAddsItself(range: Range, s: Server, d: Device, ok: bool, ref: SessionRef)
    requires AboutToAbandon(s, d, ok)
    ensures var s' := StepTask(range, s, d, s.tasks[d], ok, ref);
            s.orphaned <= s'.orphaned <= s.orphaned + {d}
  {
  }

  /** `d` is as good as a device that was never orphaned. */
  function Forgiven(s: Server, d: Device): Server { s.(orphaned := s.orphaned - {d}) }

  lemma ForgivenKeepsInv(s: Server, d: Device)
    requires Inv(s) && Good(LocalOf(s, d), s.dead, true)
    ensures Inv(Forgiven(s, d))
  {
    var s' := Forgiven(s, d);
    forall e
      ensures GoodDevice(s', e) && Claim(s', e)
    {
      assert GoodDevice(s, e) && Claim(s, e);
      assert LocalOf(s', e) == LocalOf(s, e);
    }
  }

  /** The same state up to the history of orphans. */
  predicate SameButOrphans(s: Server, t: Server) { t == s.(orphaned := t.orphaned) }

  lemma EarlyRegisterIgnoresOrphans(range: Range, s: Server, t: Server, d: Device, ok: bool, ref: SessionRef)
    requires SameButOrphans(s, t) && d in s.tasks && s.tasks[d].Register?
    requires var at := s.tasks[d].register;
      at.CheckActive? || at.CheckOwner? || at.CheckBan? || at.AllocatePort? || at.ProbePort?
    ensures SameButOrphans(StepTask(range, s, d, s.tasks[d], ok, ref), StepTask(range, t, d, t.tasks[d], ok, ref))
  {
    hide StepUpdate; hide StepDrop;
    hide Allocate; hide MarkOnline; hide MarkOffline; hide Release; hide UpdateExternalPort;
    hide StartPort; hide StopPort; hide RegisterSession; hide RemoveByChannel; hide SessionByChannel; hide Superseded;
  }

  lemma LateRegisterIgnoresOrphans(range: Range, s: Server, t: Server, d: Device, ok: bool, ref: SessionRef)
    requires SameButOrphans(s, t) && d in s.tasks && s.tasks[d].Register?
    requires var at := s.tasks[d].register;
      !(at.CheckActive? || at.CheckOwner? || at.CheckBan? || at.AllocatePort? || at.ProbePort?)
    ensures SameButOrphans(StepTask(range, s, d, s.tasks[d], ok, ref), StepTask(range, t, d, t.tasks[d], ok, ref))
  {
    hide StepUpdate; hide StepDrop;
    hide Allocate; hide MarkOnline; hide MarkOffline; hide Release; hide UpdateExternalPort;
    hide StartPort; hide StopPort; hide RegisterSession; hide RemoveByChannel; hide SessionByChannel; hide Superseded;
  }

  lemma DropIgnoresOrphans(range: Range, s: Server, t: Server, d: Device, ok: bool, ref: SessionRef)
    requires SameButOrphans(s, t) && d in s.tasks && s.tasks[d].Drop?
    ensures SameButOrphans(StepTask(range, s, d, s.tasks[d], ok, ref), StepTask(range, t, d, t.tasks[d], ok, ref))
  {
    hide StepUpdate; hide StepRegister;
    hide Allocate; hide MarkOnline; hide MarkOffline; hide Release; hide UpdateExternalPort;
    hide StartPort; hide StopPort; hide RegisterSession; hide RemoveByChannel; hide SessionByChannel; hide Superseded;
  }

  lemma EarlyUpdateIgnoresOrphans(range: Range, s: Server, t: Server, d: Device, ok: bool, ref: SessionRef)
    requires SameButOrphans(s, t) && d in s.tasks && s.tasks[d].Update?
    requires var at := s.tasks[d].update; at.ReadPort? || at.CheckReserved? || at.ReadOnline? || at.BindNew?
    ensures SameButOrphans(StepTask(range, s, d, s.tasks[d], ok, ref), StepTask(range, t, d, t.tasks[d], ok, ref))
  {
    hide StepRegister; hide StepDrop;
    hide Allocate; hide MarkOnline; hide MarkOffline; hide Release; hide UpdateExternalPort;
    hide StartPort; hide StopPort; hide RegisterSession; hide RemoveByChannel; hide SessionByChannel; hide Superseded;
  }

  lemma LateUpdateIgnoresOrphans(range: Range, s: Server, t: Server, d: Device, ok: bool, ref: SessionRef)
    requires SameButOrphans(s, t) && d in s.tasks && s.tasks[d].Update?
    requires var at := s.tasks[d].update; !(at.ReadPort? || at.CheckReserved? || at.ReadOnline? || at.BindNew?)
    ensures SameButOrphans(StepTask(range, s, d, s.tasks[d], ok, ref), StepTask(range, t, d, t.tasks[d], ok, ref))
  {
    hide StepRegister; hide StepDrop;
    hide Allocate; hide MarkOnline; hide MarkOffline; hide Release; hide UpdateExternalPort;
    hide StartPort; hide StopPort; hide RegisterSession; hide RemoveByChannel; hide SessionByChannel; hide Superseded;
  }

  lemma TaskIgnoresOrphans(range: Range, s: Server, t: Server, d: Device, ok: bool, ref: SessionRef)
    requires SameButOrphans(s, t) && d in s.tasks
    ensures SameButOrphans(StepTask(range, s, d, s.tasks[d], ok, ref), StepTask(range, t, d, t.tasks[d], ok, ref))
  {
    hide StepTask;
    match s.tasks[d]
    case Register(_, at) =>
      if at.CheckActive? || at.CheckOwner? || at.CheckBan? || at.AllocatePort? || at.ProbePort? {
        EarlyRegisterIgnoresOrphans(range, s, t, d, ok, ref);
      } else {
        LateRegisterIgnoresOrphans(range, s, t, d, ok, ref);
      }
    case Drop(_) => DropIgnoresOrphans(range, s, t, d, ok, ref);
    case Update(at) =>
      if at.ReadPort? || at.CheckReserved? || at.ReadOnline? || at.BindNew? {
        EarlyUpdateIgnoresOrphans(range, s, t, d, ok, ref);
      } else {
        LateUpdateIgnoresOrphans(range, s, t, d, ok, ref);
      }
  }

  lemma StepIgnoresOrphans(range: Range, s: Server, t: Server, l: Label)
    requires SameButOrphans(s, t)
    ensures SameButOrphans(Step(range, s, l), Step(range, t, l))
  {
    hide StepTask; hide SetFixedPort; hide SessionByChannel;
    if l.Advance? && l.d in s.tasks { TaskIgnoresOrphans(range, s, t, l.d, l.ok, l.ref); }
  }

  /** The one kind of step that costs `d` its consistency: its registration fails after its bind,
      trusts that the port had been listened on before, and there is no session. */
  predicate Abandons(s: Server, l: Label, d: Device) {
    l.Advance? && l.d == d && AboutToAbandon(s, d, l.ok) && SessionOf(s, d).None?
  }

  predicate AbandonedDuring(range: Range, s: Server, labels: seq<Label>, d: Device)
    decreases |labels|
  {
    labels != [] && (Abandons(s, labels[0], d) || AbandonedDuring(range, Step(range, s, labels[0]), labels[1..], d))
  }

  lemma OnlyAbandonsOrphan(range: Range, s: Server, l: Label, d: Device)
    requires d !in s.orphaned && !Abandons(s, l, d)
    ensures d !in Step(range, s, l).orphaned
  {
    if l.Advance? && l.d in s.tasks {
      if AboutToAbandon(s, l.d, l.ok) {
        AbandonAddsItself(range, s, l.d, l.ok, l.ref);
      } else {
        OrphanedByAbandonOnly(range, s, l.d, l.ok, l.ref);
      }
    }
  }

  /** A device that is as it should be, in whatever its operation is doing, stays so in every step
      that does not abandon it. */
  lemma UnabandonedStep(range: Range, s: Server, l: Label, d: Device)
    requires Inv(s) && Good(LocalOf(s, d), s.dead, true) && !Abandons(s, l, d)
    ensures var s' := Step(range, s, l); Inv(s') && Good(LocalOf(s', d), s'.dead, true)
  {
    hide Good; hide Global;
    var t := Forgiven(s, d);
    ForgivenKeepsInv(s, d);
    StepIgnoresOrphans(range, s, t, l);
    OnlyAbandonsOrphan(range, t, l, d);
    StepKeepsInv(range, s, l);
    StepKeepsInv(range, t, l);
    assert GoodDevice(Step(range, t, l), d);
    SameLocal(Step(range, s, l), Step(range, t, l), d);
  }

  lemma SameLocal(s: Server, t: Server, d: Device)
    requires SameButOrphans(s, t)
    ensures LocalOf(s, d) == LocalOf(t, d) && s.dead == t.dead
  {
  }

  /** `d` is consistent in every state of the run, first and last included, in which its lock is free. */
  ghost predicate ConsistentThroughout(range: Range, s: Server, labels: seq<Label>, d: Device)
    decreases |labels|
  {
    && (d !in s.tasks ==> Consistent(s, d))
    && (labels != [] ==> ConsistentThroughout(range, Step(range, s, labels[0]), labels[1..], d))
  }

  /** Whatever happened before: a device that is as it should be is consistent throughout a run if
      and only if none of its registrations is abandoned on the way. */
  lemma {:induction false} DeviceConsistentThroughoutIff(range: Range, s: Server, labels: seq<Label>, d: Device)
    requires Inv(s) && Good(LocalOf(s, d), s.dead, true)
    ensures ConsistentThroughout(range, s, labels, d) <==> !AbandonedDuring(range, s, labels, d)
    decreases |labels|
  {
    GoodWhenFree(s, d);
    if labels == [] {
    } else {
      hide Good; hide Consistent; hide Inv;
      var s' := Step(range, s, labels[0]);
      if Abandons(s, labels[0], d) {
        AbandonIsConsistentIff(range, s, d, labels[0].ok, labels[0].ref);
        assert !ConsistentThroughout(range, s', labels[1..], d);
      } else {
        UnabandonedStep(range, s, labels[0], d);
        DeviceConsistentThroughoutIff(range, s', labels[1..], d);
      }
    }
  }

  lemma GoodWhenFree(s: Server, d: Device)
    ensures d !in s.tasks ==> (Good(LocalOf(s, d), s.dead, true) <==> Consistent(s, d))
  {
  }

  ghost predicate FreeConsistent(s: Server) {
    forall d | d !in s.tasks :: Consistent(s, d)
  }

  /** Every free device is consistent in every state the run passes through. */
  ghost predicate AlwaysConsistent(range: Range, s: Server, labels: seq<Label>)
    decreases |labels|
  {
    FreeConsistent(s) && (labels == [] || AlwaysConsistent(range, Step(range, s, labels[0]), labels[1..]))
  }

  lemma {:induction false} AlwaysForOne(range: Range, s: Server, labels: seq<Label>, d: Device)
    requires AlwaysConsistent(range, s, labels)
    ensures ConsistentThroughout(range, s, labels, d)
    decreases |labels|
  {
    if labels == [] {
    } else {
      AlwaysForOne(range, Step(range, s, labels[0]), labels[1..], d);
    }
  }

  lemma {:induction false} AlwaysForAll(range: Range, s: Server, labels: seq<Label>)
    requires forall d :: ConsistentThroughout(range, s, labels, d)
    ensures AlwaysConsistent(range, s, labels)
    decreases |labels|
  {
    hide Consistent; hide Step;
    forall d | d !in s.tasks
      ensures Consistent(s, d)
    {
      assert ConsistentThroughout(range, s, labels, d);
    }
    if labels == [] {
    } else {
      forall d
        ensures ConsistentThroughout(range, Step(range, s, labels[0]), labels[1..], d)
      {
        assert ConsistentThroughout(range, s, labels, d);
      }
      AlwaysForAll(range, Step(range, s, labels[0]), labels[1..]);
    }
  }

  ghost predicate NobodyAbandoned(range: Range, s: Server, labels: seq<Label>) {
    forall d :: !AbandonedDuring(range, s, labels, d)
  }

  /** So a run in which all devices start as they should, as after start-up, is consistent throughout
      if and only if no registration is abandoned on the way. */
  lemma ConsistentThroughoutIff(range: Range, s: Server, labels: seq<Label>)
    requires Inv(s) && forall d :: Good(LocalOf(s, d), s.dead, true)
    ensures AlwaysConsistent(range, s, labels) <==> NobodyAbandoned(range, s, labels)
  {
    hide Consistent; hide Good; hide Inv; hide AlwaysConsistent; hide AbandonedDuring; hide ConsistentThroughout;
    forall d
      ensures ConsistentThroughout(range, s, labels, d) <==> !AbandonedDuring(range, s, labels, d)
    {
      assert Good(LocalOf(s, d), s.dead, true);
      DeviceConsistentThroughoutIff(range, s, labels, d);
    }
    if AlwaysConsistent(range, s, labels) {
      forall d
        ensures !AbandonedDuring(range, s, labels, d)
      {
        AlwaysForOne(range, s, labels, d);
      }
    }
    if NobodyAbandoned(range, s, labels) { AlwaysForAll(range, s, labels); }
  }

  lemma {:induction false} ThroughoutToTheEnd(range: Range, s: Server, labels: seq<Label>, d: Device)
    requires ConsistentThroughout(range, s, labels, d)
    ensures var t := Run(range, s, labels); d !in t.tasks ==> Consistent(t, d)
    decreases |labels|
  {
    if labels == [] {
    } else {
      ThroughoutToTheEnd(range, Step(range, s, labels[0]), labels[1..], d);
    }
  }

  /** A device that is consistent, whatever happened to it before, is consistent whenever its lock
      is free, until a registration of its own is abandoned again. */
  lemma ConsistentUntilAbandoned(range: Range, s: Server, labels: seq<Label>, d: Device)
    requires Inv(s) && d !in s.tasks && Consistent(s, d) && !AbandonedDuring(range, s, labels, d)
    ensures var t := Run(range, s, labels); d !in t.tasks ==> Consistent(t, d)
  {
    GoodWhenFree(s, d);
    DeviceConsistentThroughoutIff(range, s, labels, d);
    ThroughoutToTheEnd(range, s, labels, d);
  }

  /** After any run from start-up, for every device whose lock is free: its session is on its
      reserved port; a session with a live channel is listened for and shown online; a banned
      device has no session; and its listener and its online flag belong to a session, unless one
      of its registrations was abandoned after it was last consistent.  It is so at start-up, which
      is `before == []`.  Reserved ports stay unique and agree with the database. */
  lemma EveryRunIsSafe(range: Range, repository: Table, banned: set<Device>, before: seq<Label>, after: seq<Label>,
        d: Device)
    requires Keyed(repository) && UniquePorts(repository)
    ensures Consistent(Started(repository, banned), d)
    ensures var s := Run(range, Started(repository, banned), before);
            var t := Run(range, s, after);
            && WellFormed(t.reservations) && MutuallyInverse(t.sessions)
            && (d !in t.tasks ==> Sound(LocalOf(t, d), t.dead))
            && (d !in s.tasks && Consistent(s, d) && !AbandonedDuring(range, s, after, d) && d !in t.tasks ==>
              Consistent(t, d))
  {
    StartedInv(repository, banned);
    var s := Run(range, Started(repository, banned), before);
    RunKeepsInv(range, Started(repository, banned), before);
    RunKeepsInv(range, s, after);
    assert GoodDevice(Run(range, s, after), d);
    if d !in s.tasks && Consistent(s, d) && !AbandonedDuring(range, s, after, d) {
      ConsistentUntilAbandoned(range, s, after, d);
    }
  }

  // 3. Late disconnects ----------------------------------------------------------------------

  /** `ref` is a session of `d` that is no longer its current one. */
  ghost predicate Replaced(s: Server, ref: SessionRef, d: Device) {
    ref in s.sessions.objects && s.sessions.objects[ref].deviceId == d && RefOf(s, d) != Some(ref)
  }

  lemma RegisterKeepsReplaced(range: Range, s: Server, e: Device, ok: bool, fresh': SessionRef, ref: SessionRef,
        d: Device)
    requires Inv(s) && Replaced(s, ref, d) && e in s.tasks && s.tasks[e].Register?
    ensures Replaced(StepTask(range, s, e, s.tasks[e], ok, fresh'), ref, d)
  {
    var at := s.tasks[e].register;
    if at.RetireOld? || at.Install? {
    } else {
      RegisterLeavesSessions(range, s, e, ok, fresh');
    }
  }

  lemma RegisterLeavesSessions(range: Range, s: Server, e: Device, ok: bool, ref: SessionRef)
    requires e in s.tasks && s.tasks[e].Register? && !s.tasks[e].register.RetireOld? && !s.tasks[e].register.Install?
    ensures StepTask(range, s, e, s.tasks[e], ok, ref).sessions == s.sessions
  {
  }

  lemma DropKeepsReplaced(range: Range, s: Server, e: Device, ok: bool, fresh': SessionRef, ref: SessionRef, d: Device)
    requires Inv(s) && Replaced(s, ref, d) && e in s.tasks && s.tasks[e].Drop?
    ensures Replaced(StepTask(range, s, e, s.tasks[e], ok, fresh'), ref, d)
  {
  }

  lemma UpdateKeepsReplaced(range: Range, s: Server, e: Device, ok: bool, fresh': SessionRef, ref: SessionRef,
        d: Device)
    requires Inv(s) && Replaced(s, ref, d) && e in s.tasks && s.tasks[e].Update?
    ensures Replaced(StepTask(range, s, e, s.tasks[e], ok, fresh'), ref, d)
  {
  }

  lemma StepKeepsReplaced(range: Range, s: Server, l: Label, ref: SessionRef, d: Device)
    requires Inv(s) && Replaced(s, ref, d)
    ensures Replaced(Step(range, s, l), ref, d)
  {
    if l.Advance? && l.d in s.tasks {
      match s.tasks[l.d]
      case Register(_, _) => RegisterKeepsReplaced(range, s, l.d, l.ok, l.ref, ref, d);
      case Drop(_) => DropKeepsReplaced(range, s, l.d, l.ok, l.ref, ref, d);
      case Update(_) => UpdateKeepsReplaced(range, s, l.d, l.ok, l.ref, ref, d);
    }
  }

  lemma {:induction false} ReplacedForever(range: Range, s: Server, labels: seq<Label>, ref: SessionRef, d: Device)
    requires Inv(s) && Replaced(s, ref, d)
    ensures Replaced(Run(range, s, labels), ref, d)
    decreases |labels|
  {
    if labels == [] {
    } else {
      StepKeepsInv(range, s, labels[0]);
      StepKeepsReplaced(range, s, labels[0], ref, d);
      ReplacedForever(range, Step(range, s, labels[0]), labels[1..], ref, d);
    }
  }

  /** Once a session has been replaced, the inactive event of its channel does nothing at all,
      however late it gets the lock and whatever happened meanwhile; while the session is
      current and its device's lock is free, the event starts dropping exactly that session. */
  lemma LateDisconnectIsHarmless(range: Range, s: Server, labels: seq<Label>, ref: SessionRef, d: Device)
    requires Inv(s) && ref in s.sessions.objects && s.sessions.objects[ref].deviceId == d
    ensures Replaced(s, ref, d) ==>
              var s' := Run(range, s, labels); Step(range, s', Disconnected(ref)) == s'
    ensures !Replaced(s, ref, d) && d !in s.tasks ==>
              Step(range, s, Disconnected(ref)) == Goto(s, d, Drop(ReadSession(Finish)))
  {
    if Replaced(s, ref, d) {
      var s' := Run(range, s, labels);
      RunKeepsInv(range, s, labels);
      ReplacedForever(range, s, labels, ref, d);
      ByChannelIsCurrent(s'.sessions, s'.sessions.objects[ref].channel, d, ref);
    } else {
      ByChannelIsCurrent(s.sessions, s.sessions.objects[ref].channel, d, ref);
    }
  }

  // 4. Fixed ports ------------------------------------------------------------------------------

  ghost predicate HasPort(s: Server, d: Device, p: Port) {
    d in s.reservations.cache && s.reservations.cache[d].externalPort == p
  }

  /** An administrator who presets a port gives it to the device exactly if the device has none, nobody else
      has it, and the write commits. */
  lemma PresetGrantsIff(range: Range, s: Server, d: Device, p: Port, target: int, ok: bool)
    requires d !in s.tasks && range.Contains(p) && ValidTarget(target)
    ensures HasPort(Step(range, s, Preset(d, p, target, ok)), d, p) <==>
              HasPort(s, d, p) || (ok && d !in s.reservations.cache && !Reserved(s.reservations.cache, p))
  {
  }

  /** The one step of an update and of a deletion that commits. */
  predicate CommitsMove(s: Server, l: Label, d: Device) {
    && l.Advance? && l.d == d && l.ok && d in s.tasks
    && ((s.tasks[d].Update? && s.tasks[d].update.SavePort?) || (s.tasks[d].Drop? && s.tasks[d].drop.ReleaseRow?))
  }

  lemma RegisterKeepsPort(range: Range, s: Server, d: Device, ok: bool, ref: SessionRef, p: Port)
    requires RowKeyed(s, d) && d in s.tasks && s.tasks[d].Register? && HasPort(s, d, p)
    ensures HasPort(StepTask(range, s, d, s.tasks[d], ok, ref), d, p)
  {
    hide StartPort; hide StopPort; hide RegisterSession; hide SessionByChannel;
  }

  lemma DropKeepsPort(range: Range, s: Server, d: Device, ok: bool, ref: SessionRef, p: Port)
    requires RowKeyed(s, d) && d in s.tasks && s.tasks[d].Drop? && HasPort(s, d, p)
    requires !(ok && s.tasks[d].drop.ReleaseRow?)
    ensures HasPort(StepTask(range, s, d, s.tasks[d], ok, ref), d, p)
  {
    hide StopPort; hide RemoveByChannel;
  }

  lemma UpdateKeepsPort(range: Range, s: Server, d: Device, ok: bool, ref: SessionRef, p: Port)
    requires RowKeyed(s, d) && d in s.tasks && s.tasks[d].Update? && HasPort(s, d, p)
    requires !(ok && s.tasks[d].update.SavePort?)
    ensures HasPort(StepTask(range, s, d, s.tasks[d], ok, ref), d, p)
  {
    hide StartPort; hide StopPort;
  }

  lemma AdvanceKeepsPort(range: Range, s: Server, e: Device, ok: bool, ref: SessionRef, d: Device, p: Port)
    requires Inv(s) && HasPort(s, d, p) && e in s.tasks && !CommitsMove(s, Advance(e, ok, ref), d)
    ensures HasPort(StepTask(range, s, e, s.tasks[e], ok, ref), d, p)
  {
    if e == d {
      match s.tasks[d]
      case Register(_, _) => RegisterKeepsPort(range, s, d, ok, ref, p);
      case Drop(_) => DropKeepsPort(range, s, d, ok, ref, p);
      case Update(_) => UpdateKeepsPort(range, s, d, ok, ref, p);
    } else {
      assert GoodDevice(s, e);
      TaskFrame(range, s, e, ok, ref, d);
      assert LocalOf(s, d) == LocalOf(StepTask(range, s, e, s.tasks[e], ok, ref), d);
    }
  }

  lemma BeginKeepsPort(range: Range, s: Server, l: Label, d: Device, p: Port)
    requires WellFormed(s.reservations) && HasPort(s, d, p) && !l.Advance?
    ensures HasPort(Step(range, s, l), d, p)
  {
    hide SessionByChannel;
  }

  /** No step of the run commits an update or a deletion of `d`. */
  predicate NeverMoved(range: Range, s: Server, labels: seq<Label>, d: Device)
    decreases |labels|
  {
    labels == [] || (!CommitsMove(s, labels[0], d) && NeverMoved(range, Step(range, s, labels[0]), labels[1..], d))
  }

  /** Reconnects, failed registrations, failed updates and deletions, disconnects, bans and
      everything other devices do leave a device's port where it is, until an update or a deletion
      of its own is committed. */
  lemma {:induction false} PortIsFixed(range: Range, s: Server, labels: seq<Label>, d: Device, p: Port)
    requires Inv(s) && HasPort(s, d, p) && NeverMoved(range, s, labels, d)
    ensures HasPort(Run(range, s, labels), d, p)
    decreases |labels|
  {
    if labels == [] {
    } else {
      var l := labels[0];
      StepKeepsInv(range, s, l);
      if !l.Advance? {
        BeginKeepsPort(range, s, l, d, p);
      } else if l.d in s.tasks {
        AdvanceKeepsPort(range, s, l.d, l.ok, l.ref, d, p);
      }
      PortIsFixed(range, Step(range, s, l), labels[1..], d, p);
    }
  }

  /** The process ends, wherever its operations are, and a new one loads the database. */
  function Restarted(s: Server): Server { Started(s.reservations.repository, s.banned) }

  function RunLives(range: Range, s: Server, lives: seq<seq<Label>>): Server
    decreases |lives|
  {
    if lives == [] then s else RunLives(range, Restarted(Run(range, s, lives[0])), lives[1..])
  }

  predicate NeverMovedInLives(range: Range, s: Server, lives: seq<seq<Label>>, d: Device)
    decreases |lives|
  {
    lives != [] ==>
      && NeverMoved(range, s, lives[0], d)
      && NeverMovedInLives(range, Restarted(Run(range, s, lives[0])), lives[1..], d)
  }

  lemma RestartKeepsPort(s: Server, d: Device, p: Port)
    requires Inv(s) && HasPort(s, d, p)
    ensures Inv(Restarted(s)) && HasPort(Restarted(s), d, p)
  {
    var (cache, repository) := (s.reservations.cache, s.reservations.repository);
    assert forall e | e in cache :: SameButOnline(cache[e], repository[e]);
    assert Keyed(repository) && UniquePorts(repository);
    StartedInv(repository, s.banned);
  }

  /** So it is over any number of restarts, each of them in the middle of anything. */
  lemma {:induction false} PortSurvivesRestarts(range: Range, s: Server, lives: seq<seq<Label>>, d: Device, p: Port)
    requires Inv(s) && HasPort(s, d, p) && NeverMovedInLives(range, s, lives, d)
    ensures HasPort(RunLives(range, s, lives), d, p)
    decreases |lives|
  {
    if lives == [] {
    } else {
      RunKeepsInv(range, s, lives[0]);
      PortIsFixed(range, s, lives[0], d, p);
      RestartKeepsPort(Run(range, s, lives[0]), d, p);
      PortSurvivesRestarts(range, Restarted(Run(range, s, lives[0])), lives[1..], d, p);
    }
  }
}
