/** What can follow OrphanExample.dfy: both reservations are deleted, `b` registers again and is
    given 6000.  It is online there and still listens on 6001, so that listener is left over, and a
    port update to 6001 whose write fails stops it. */
module LeftoverExample {
  import opened Wrappers
  import opened Reservations
  import opened Sessions
  import opened Listeners
  import opened DeviceLifecycle
  import opened DeviceConsistency
  import opened DeviceTheorems
  import opened OrphanExample
  import opened PortUpdates
  import opened Restoration

  // The reservation of `a` is deleted -----------------------------------------------------------

  /** `b` alone has a reservation, `a`'s session is gone, and so is its channel once it is closed. */
  function WithoutA(a: Device, b: Device, dead: set<Channel>): Server {
    Lost(a, b).(
      reservations := Store(map[b := Reservation(b, 6001, 3389, false)], map[b := Reservation(b, 6001, 3389, false)]),
      sessions := SessionTables(map[1 := ClientSession(a, 1, 6000, OFFLINE)], map[], map[]),
      owners := map[6001 := b], dead := dead)
  }

  /** The steps of the deletion, as far as the session is concerned. */
  function Dropping(a: Device, b: Device, owners: Owners): Server {
    Lost(a, b).(sessions := SessionTables(map[1 := ClientSession(a, 1, 6000, OFFLINE)], map[], map[]), owners := owners)
  }

  lemma BeginDropA(a: Device, b: Device)
    requires a != b
    ensures Reaches(EMPTY, Holding(Dropping(a, b, map[6000 := a, 6001 := b]), a,
                                   Drop(StopListener(1, 6000, ReleaseReservation))))
  {
    hide Reaches; hide StepRegister; hide StepUpdate;
    LoseConsistency(a, b);
    var s := Lost(a, b);
    Then(s, BeginDelete(a), Holding(s, a, Drop(ReadSession(ReleaseReservation))));
    Then(Holding(s, a, Drop(ReadSession(ReleaseReservation))), Advance(a, true, 0),
         Holding(s, a, Drop(RemoveSession(1, 6000, ReleaseReservation))));
    Then(Holding(s, a, Drop(RemoveSession(1, 6000, ReleaseReservation))), Advance(a, true, 0),
         Holding(Dropping(a, b, map[6000 := a, 6001 := b]), a, Drop(StopListener(1, 6000, ReleaseReservation))));
  }

  function OfflineRows(a: Device, b: Device): Store {
    Store(BothRows(a, b).cache[a := Reservation(a, 6000, 3389, false)], BothRows(a, b).repository)
  }

  lemma StopA(a: Device, b: Device)
    requires a != b
    ensures Reaches(EMPTY, Holding(Dropping(a, b, map[6001 := b]).(reservations := OfflineRows(a, b)), a,
                                   Drop(CloseChannel(1, ReleaseReservation))))
  {
    hide Reaches; hide StepRegister; hide StepUpdate;
    BeginDropA(a, b);
    var (s, t) := (Dropping(a, b, map[6000 := a, 6001 := b]), Dropping(a, b, map[6001 := b]));
    assert s.owners - {6000} == t.owners;
    Then(Holding(s, a, Drop(StopListener(1, 6000, ReleaseReservation))), Advance(a, true, 0),
         Holding(t, a, Drop(SetOffline(1, ReleaseReservation))));
    Then(Holding(t, a, Drop(SetOffline(1, ReleaseReservation))), Advance(a, true, 0),
         Holding(t.(reservations := OfflineRows(a, b)), a, Drop(CloseChannel(1, ReleaseReservation))));
  }

  function Offline(a: Device, b: Device, dead: set<Channel>): Server {
    Dropping(a, b, map[6001 := b]).(reservations := OfflineRows(a, b), dead := dead)
  }

  lemma CloseA(a: Device, b: Device)
    requires a != b
    ensures Reaches(EMPTY, Holding(Offline(a, b, {1}), a, Drop(ReleaseRow)))
  {
    hide Reaches; hide StepRegister; hide StepUpdate;
    StopA(a, b);
    var t := Offline(a, b, {});
    assert t.dead + {1} == {1};
    assert Dropping(a, b, map[6001 := b]).(reservations := OfflineRows(a, b)) == t;
    Then(Holding(t, a, Drop(CloseChannel(1, ReleaseReservation))), Advance(a, true, 0),
         Holding(Offline(a, b, {1}), a, Drop(ReleaseRow)));
  }

  lemma DeleteA(a: Device, b: Device)
    requires a != b
    ensures Reaches(EMPTY, WithoutA(a, b, {1}))
  {
    hide Reaches; hide StepRegister; hide StepUpdate;
    CloseA(a, b);
    var u := Offline(a, b, {1});
    var rows := WithoutA(a, b, {1}).reservations;
    assert u.reservations.cache - {a} == rows.cache && u.reservations.repository - {a} == rows.repository;
    assert Holding(u, a, Drop(ReleaseRow)).tasks - {a} == map[];
    Then(Holding(u, a, Drop(ReleaseRow)), Advance(a, true, 0), WithoutA(a, b, {1}));
  }

  // The reservation of `b` is deleted -----------------------------------------------------------

  /** No reservations and no sessions, but `b` still listens. */
  function NoRows(a: Device, b: Device): Server {
    WithoutA(a, b, {1}).(reservations := Store(map[], map[]))
  }

  lemma DeleteB(a: Device, b: Device)
    requires a != b
    ensures Reaches(EMPTY, NoRows(a, b))
  {
    hide Reaches; hide StepRegister; hide StepUpdate;
    DeleteA(a, b);
    var s := WithoutA(a, b, {1});
    Then(s, BeginDelete(b), Holding(s, b, Drop(ReadSession(ReleaseReservation))));
    Then(Holding(s, b, Drop(ReadSession(ReleaseReservation))), Advance(b, true, 0), Holding(s, b, Drop(ReleaseRow)));
    assert s.reservations.cache - {b} == map[] && s.reservations.repository - {b} == map[];
    assert Holding(s, b, Drop(ReleaseRow)).tasks - {b} == map[];
    Then(Holding(s, b, Drop(ReleaseRow)), Advance(b, true, 0), NoRows(a, b));
  }

  // `b` registers again -------------------------------------------------------------------------

  /** `b` has 6000 and listens on both ports. */
  function Rebound(a: Device, b: Device, online: bool): Server {
    NoRows(a, b).(reservations := Rows(b, online), owners := map[6001 := b, 6000 := b])
  }

  lemma Reallocate(a: Device, b: Device)
    requires a != b
    ensures Reaches(EMPTY, Holding(NoRows(a, b).(reservations := Rows(b, false)), b,
                                   Register(3, ProbePort(3389, 6000))))
  {
    hide Reaches; hide StepDrop; hide StepUpdate;
    DeleteB(a, b);
    var s := NoRows(a, b);
    PassChecks(s, b, 3);
    assert !Reserved(s.reservations.cache, 6000);
    Then(Holding(s, b, Register(3, AllocatePort(3389))), Advance(b, true, 0),
         Holding(s.(reservations := Rows(b, false)), b, Register(3, ProbePort(3389, 6000))));
  }

  lemma Rebind(a: Device, b: Device)
    requires a != b
    ensures Reaches(EMPTY, Holding(Rebound(a, b, false), b, Register(3, SetOnline(3389, 6000, Probe(false, false)))))
  {
    hide Reaches; hide StepDrop; hide StepUpdate;
    Reallocate(a, b);
    var s := NoRows(a, b).(reservations := Rows(b, false));
    var bind := Register(3, BindPort(3389, 6000, Probe(false, false)));
    Then(Holding(s, b, Register(3, ProbePort(3389, 6000))), Advance(b, true, 0), Holding(s, b, bind));
    Then(Holding(s, b, bind), Advance(b, true, 0),
         Holding(Rebound(a, b, false), b, Register(3, SetOnline(3389, 6000, Probe(false, false)))));
  }

  lemma Remark(a: Device, b: Device)
    requires a != b
    ensures Reaches(EMPTY, Holding(Rebound(a, b, true), b, Register(3, RetireOld(6000))))
  {
    hide Reaches; hide StepDrop; hide StepUpdate;
    Rebind(a, b);
    var s := Rebound(a, b, true);
    Then(Holding(Rebound(a, b, false), b, Register(3, SetOnline(3389, 6000, Probe(false, false)))), Advance(b, true, 0),
         Holding(s, b, Register(3, CheckAgain(6000, Probe(false, false)))));
    Then(Holding(s, b, Register(3, CheckAgain(6000, Probe(false, false)))), Advance(b, true, 0),
         Holding(s, b, Register(3, RetireOld(6000))));
  }

  /** `b` is online on 6000 over channel 3 and still listens on 6001. */
  function LeftOver(a: Device, b: Device): Server {
    Rebound(a, b, true).(
      sessions := SessionTables(
        map[1 := ClientSession(a, 1, 6000, OFFLINE), 3 := ClientSession(b, 3, 6000, ONLINE)], map[b := 3], map[3 := b]))
  }

  lemma Reinstall(a: Device, b: Device)
    requires a != b
    ensures Reaches(EMPTY, LeftOver(a, b))
  {
    hide Allocate; hide MarkOnline; hide StartPort; hide StopPort; hide MarkOffline;
    hide Reaches; hide StepDrop; hide StepUpdate;
    Remark(a, b);
    var s := Rebound(a, b, true);
    Then(Holding(s, b, Register(3, RetireOld(6000))), Advance(b, true, 0), Holding(s, b, Register(3, Install(6000))));
    assert Holding(s, b, Register(3, Install(6000))).tasks - {b} == map[];
    Then(Holding(s, b, Register(3, Install(6000))), Advance(b, true, 3), LeftOver(a, b));
  }

  // What follows --------------------------------------------------------------------------------

  lemma ReachableIsSafe(s: Server)
    requires Reaches(EMPTY, s)
    ensures Inv(s)
  {
    StartedInv(map[], {});
    var labels :| Run(TWO_PORTS, EMPTY, labels) == s;
    RunKeepsInv(TWO_PORTS, EMPTY, labels);
  }

  /** From start-up a device can get to listening, online, on a port it does not own: an update to
      that port passes its checks, and if its write fails, the listener is gone. */
  lemma UpdateCanLoseListener(a: Device, b: Device)
    requires a != b
    ensures exists s :: Reaches(EMPTY, s) && b !in s.tasks && PassesChecks(TWO_PORTS, s, b, 6001)
                        && 6001 in PortsOf(s.owners, b) && LiveAt(LocalOf(s, b), s.dead)
                        && !AlwaysAllOrNothing(TWO_PORTS, s, b, 6001)
  {
    Reinstall(a, b);
    var s := LeftOver(a, b);
    ReachableIsSafe(s);
    assert PassesChecks(TWO_PORTS, s, b, 6001) && 6001 in PortsOf(s.owners, b) && LiveAt(LocalOf(s, b), s.dead);
    AllOrNothingIff(TWO_PORTS, s, b, 6001);
  }

  /** The same device shows a listener that stays: registering has not removed it, and nothing that
      leaves the reservation off 6001 and tries no update to 6001 will. */
  lemma LeftoverCanStay(a: Device, b: Device)
    requires a != b
    ensures exists s :: Reaches(EMPTY, s) && b !in s.tasks && SessionOf(s, b).Some? && !Consistent(s, b)
                        && forall labels | Elsewhere(TWO_PORTS, s, labels, b, 6001) ::
                             6001 in PortsOf(Run(TWO_PORTS, s, labels).owners, b)
  {
    Reinstall(a, b);
    var s := LeftOver(a, b);
    ReachableIsSafe(s);
    assert 6001 in PortsOf(s.owners, b) && !OnPort(LocalOf(s, b), 6001);
    LeftoverStays(TWO_PORTS, s, [], b, 6001);
    forall labels | Elsewhere(TWO_PORTS, s, labels, b, 6001)
      ensures 6001 in PortsOf(Run(TWO_PORTS, s, labels).owners, b)
    {
      LeftoverStays(TWO_PORTS, s, labels, b, 6001);
    }
  }
}
