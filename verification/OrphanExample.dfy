/** A run that loses consistency: one failed registration leaves a listener, and nothing else,
    to a device without a session.  Range 6000-6001; `a` is online on 6000 and updating to 6001
    when `b` registers, is given 6001, and takes `a`'s tentative listener for a live one. */
module OrphanExample {
  import opened Wrappers
  import opened Reservations
  import opened Sessions
  import opened Listeners
  import opened DeviceLifecycle
  import opened DeviceConsistency

  const TWO_PORTS := Range(6000, 6001)

  ghost predicate Reaches(s0: Server, s: Server) { exists labels :: Run(TWO_PORTS, s0, labels) == s }

  lemma {:induction false} RunAppend(s: Server, labels: seq<Label>, l: Label)
    ensures Run(TWO_PORTS, s, labels + [l]) == Step(TWO_PORTS, Run(TWO_PORTS, s, labels), l)
    decreases |labels|
  {
    if labels == [] {
      assert (labels + [l])[1..] == [];
    } else {
      assert (labels + [l])[1..] == labels[1..] + [l];
      RunAppend(Step(TWO_PORTS, s, labels[0]), labels[1..], l);
    }
  }

  lemma Then(s: Server, l: Label, next: Server)
    requires Reaches(EMPTY, s) && Step(TWO_PORTS, s, l) == next
    ensures Reaches(EMPTY, next)
  {
    var labels :| Run(TWO_PORTS, EMPTY, labels) == s;
    RunAppend(EMPTY, labels, l);
  }

  const EMPTY := Started(map[], {})

  function Holding(s: Server, d: Device, t: Task): Server { s.(tasks := s.tasks[d := t]) }

  function Rows(a: Device, online: bool): Store {
    Store(map[a := Reservation(a, 6000, 3389, online)], map[a := Reservation(a, 6000, 3389, online)])
  }

  /** `a` has its port and its listener, but no session yet. */
  function Listening(a: Device, online: bool): Server {
    EMPTY.(reservations := Rows(a, online), owners := map[6000 := a])
  }

  /** `a` online on 6000 over channel 1. */
  function Online(a: Device): Server {
    Listening(a, true).(
      sessions := SessionTables(map[1 := ClientSession(a, 1, 6000, ONLINE)], map[a := 1], map[1 := a]))
  }

  /** `a` has bound 6001 but not saved it. */
  function Binding(a: Device): Server {
    Holding(Online(a).(owners := map[6000 := a, 6001 := a]), a, Update(SavePort(6000, 6001, Some(1), true)))
  }

  /** `b` has been given 6001 meanwhile and found it listened on. */
  function Collided(a: Device, b: Device): Server {
    Holding(Binding(a).(reservations := BothRows(a, b)), b, Register(2, BindPort(3389, 6001, Probe(true, true))))
  }

  function BothRows(a: Device, b: Device): Store {
    Store(Rows(a, true).cache[b := Reservation(b, 6001, 3389, false)],
          Rows(a, true).repository[b := Reservation(b, 6001, 3389, false)])
  }

  /** The checks before allocation pass for an unknown device on a new channel. */
  lemma PassChecks(s: Server, d: Device, c: Channel)
    requires Reaches(EMPTY, s) && d !in s.tasks && !Registering(s, c)
    requires c !in s.dead && c !in s.sessions.channelToDevice && d !in s.banned
    ensures Reaches(EMPTY, Holding(s, d, Register(c, AllocatePort(3389))))
  {
    Then(s, BeginRegister(d, c, 3389), Holding(s, d, Register(c, CheckActive(3389))));
    Then(Holding(s, d, Register(c, CheckActive(3389))), Advance(d, true, 0),
         Holding(s, d, Register(c, CheckOwner(3389))));
    Then(Holding(s, d, Register(c, CheckOwner(3389))), Advance(d, true, 0), Holding(s, d, Register(c, CheckBan(3389))));
    Then(Holding(s, d, Register(c, CheckBan(3389))), Advance(d, true, 0),
         Holding(s, d, Register(c, AllocatePort(3389))));
  }

  function Allocated(a: Device): Server {
    Holding(EMPTY.(reservations := Rows(a, false)), a, Register(1, ProbePort(3389, 6000)))
  }

  lemma AllocateFirst(a: Device)
    ensures Reaches(EMPTY, Allocated(a))
  {
    assert Run(TWO_PORTS, EMPTY, []) == EMPTY;
    PassChecks(EMPTY, a, 1);
    assert !Reserved(EMPTY.reservations.cache, 6000);
    Then(Holding(EMPTY, a, Register(1, AllocatePort(3389))), Advance(a, true, 0), Allocated(a));
  }

  lemma BindFirst(a: Device)
    ensures Reaches(EMPTY, Holding(Listening(a, false), a, Register(1, SetOnline(3389, 6000, Probe(false, false)))))
  {
    AllocateFirst(a);
    var bind := Register(1, BindPort(3389, 6000, Probe(false, false)));
    Then(Allocated(a), Advance(a, true, 0), Holding(Allocated(a), a, bind));
    Then(Holding(Allocated(a), a, bind), Advance(a, true, 0),
         Holding(Listening(a, false), a, Register(1, SetOnline(3389, 6000, Probe(false, false)))));
  }

  lemma MarkFirst(a: Device)
    ensures Reaches(EMPTY, Holding(Listening(a, true), a, Register(1, CheckAgain(6000, Probe(false, false)))))
  {
    BindFirst(a);
    Then(Holding(Listening(a, false), a, Register(1, SetOnline(3389, 6000, Probe(false, false)))), Advance(a, true, 0),
         Holding(Listening(a, true), a, Register(1, CheckAgain(6000, Probe(false, false)))));
  }

  lemma VerifyFirst(a: Device)
    ensures Reaches(EMPTY, Holding(Listening(a, true), a, Register(1, Install(6000))))
  {
    MarkFirst(a);
    var s := Listening(a, true);
    Then(Holding(s, a, Register(1, CheckAgain(6000, Probe(false, false)))), Advance(a, true, 0),
         Holding(s, a, Register(1, RetireOld(6000))));
    Then(Holding(s, a, Register(1, RetireOld(6000))), Advance(a, true, 0), Holding(s, a, Register(1, Install(6000))));
  }

  lemma BringOnline(a: Device)
    ensures Reaches(EMPTY, Online(a))
  {
    VerifyFirst(a);
    assert Holding(Listening(a, true), a, Register(1, Install(6000))).tasks - {a} == map[];
    Then(Holding(Listening(a, true), a, Register(1, Install(6000))), Advance(a, true, 1), Online(a));
  }

  lemma CheckMove(a: Device)
    ensures Reaches(EMPTY, Holding(Online(a), a, Update(ReadOnline(6000, 6001))))
  {
    BringOnline(a);
    var s := Online(a);
    Then(s, BeginUpdate(a, 6001), Holding(s, a, Update(ReadPort(6001))));
    Then(Holding(s, a, Update(ReadPort(6001))), Advance(a, true, 0), Holding(s, a, Update(CheckReserved(6000, 6001))));
    Then(Holding(s, a, Update(CheckReserved(6000, 6001))), Advance(a, true, 0),
         Holding(s, a, Update(ReadOnline(6000, 6001))));
  }

  lemma BeginMoving(a: Device)
    ensures Reaches(EMPTY, Binding(a))
  {
    CheckMove(a);
    var bind := Update(BindNew(6000, 6001, Some(1), true));
    Then(Holding(Online(a), a, Update(ReadOnline(6000, 6001))), Advance(a, true, 0), Holding(Online(a), a, bind));
    Then(Holding(Online(a), a, bind), Advance(a, true, 0), Binding(a));
  }

  lemma Collide(a: Device, b: Device)
    requires a != b
    ensures Reaches(EMPTY, Collided(a, b))
  {
    hide Reaches; hide StepUpdate; hide StepDrop; hide StartPort; hide StopPort;
    BeginMoving(a);
    PassChecks(Binding(a), b, 2);
    var s := Binding(a).(reservations := BothRows(a, b));
    assert Binding(a).reservations.cache[a].externalPort == 6000;
    assert LowestFree(Binding(a).reservations.cache, 6000, 6001) == Some(6001);
    Then(Holding(Binding(a), b, Register(2, AllocatePort(3389))), Advance(b, true, 0),
         Holding(s, b, Register(2, ProbePort(3389, 6001))));
    Then(Holding(s, b, Register(2, ProbePort(3389, 6001))), Advance(b, true, 0), Collided(a, b));
  }

  /** `a`'s update is refused and undone. */
  function Refused(a: Device, b: Device): Server {
    Collided(a, b).(owners := map[6000 := a], tasks := map[b := Register(2, BindPort(3389, 6001, Probe(true, true)))])
  }

  lemma RefuseSave(a: Device, b: Device)
    requires a != b
    ensures Reaches(EMPTY, Holding(Collided(a, b), a, Update(UndoBind(6000, 6001))))
  {
    Collide(a, b);
    var s := Collided(a, b);
    assert s.reservations.cache[b].externalPort == 6001;
    Then(s, Advance(a, true, 0), Holding(s, a, Update(UndoBind(6000, 6001))));
  }

  lemma Refuse(a: Device, b: Device)
    requires a != b
    ensures Reaches(EMPTY, Refused(a, b))
  {
    hide Reaches; hide StepRegister; hide StepDrop; hide LowestFree;
    RefuseSave(a, b);
    var s := Collided(a, b);
    Then(Holding(s, a, Update(UndoBind(6000, 6001))), Advance(a, true, 0), Refused(a, b));
  }

  /** `b` has bound 6001 after all, its write has failed, and the listener stays. */
  function Lost(a: Device, b: Device): Server {
    Refused(a, b).(owners := map[6000 := a, 6001 := b], tasks := map[], orphaned := {b})
  }

  lemma LoseConsistency(a: Device, b: Device)
    requires a != b
    ensures Reaches(EMPTY, Lost(a, b))
  {
    Refuse(a, b);
    var s := Refused(a, b).(owners := map[6000 := a, 6001 := b]);
    Then(Refused(a, b), Advance(b, true, 0), Holding(s, b, Register(2, SetOnline(3389, 6001, Probe(true, true)))));
    Then(Holding(s, b, Register(2, SetOnline(3389, 6001, Probe(true, true)))), Advance(b, false, 0), Lost(a, b));
  }

  /** From start-up, two devices and one failed database write suffice: afterwards both locks are
      free, `b` has no session, yet it owns a live listener. */
  lemma ConsistencyCanBeLost(a: Device, b: Device)
    requires a != b
    ensures exists s :: Reaches(EMPTY, s) && a !in s.tasks && b !in s.tasks && SessionOf(s, b).None?
                        && 6001 in PortsOf(s.owners, b) && !Consistent(s, b)
  {
    LoseConsistency(a, b);
    assert 6001 in LocalOf(Lost(a, b), b).ports;
  }
}
