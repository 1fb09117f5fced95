/** What a deletion and a ban have done when their lock is free again, under any interference. */
module RemovalResult {
  import opened Wrappers
  import opened Reservations
  import opened Sessions
  import opened Listeners
  import opened DeviceLifecycle
  import opened DeviceConsistency
  import opened DeviceTheorems
  import opened PortUpdates
  import opened Restoration

  // Deletions ------------------------------------------------------------------------------------------

  /** The same reservation up to the online flag, or none as before. */
  ghost predicate SameReservation(before: Option<Reservation>, now: Option<Reservation>) {
    if before.Some? then now.Some? && SameButOnline(before.value, now.value) else now.None?
  }

  /** How far a deletion begun with the reservation `row` has got; `write` says whether its write has been
      tried and has gone through. */
  ghost predicate DeletionProgress(row: Option<Reservation>, l: Local, write: Option<bool>) {
    match l.task
    case None =>
      && l.session.None? && (row.Some? ==> write.Some?)
      && (if write == Some(true) then l.row.None? else SameReservation(row, l.row))
    case Some(Drop(at)) =>
      && write.None? && SameReservation(row, l.row)
      && (match at
          case SaveBan => false
          case ReleaseRow => l.session.None?
          case ReadSession(next) => next.ReleaseReservation?
          case RemoveSession(_, _, next) => next.ReleaseReservation?
          case _ => at.next.ReleaseReservation? && l.session.None?)
    case _ => false
  }

  /** The step in which the deletion of `d` writes to the database decides what its write did. */
  function Releasing(s: Server, l: Label, d: Device, write: Option<bool>): Option<bool> {
    if l.Advance? && l.d == d && d in s.tasks && s.tasks[d] == Drop(ReleaseRow) && RowOf(s, d).Some? then Some(l.ok)
    else write
  }

  function ReleaseWrite(range: Range, s: Server, labels: seq<Label>, d: Device, write: Option<bool>): Option<bool>
    decreases |labels|
  {
    if labels == [] then write
    else ReleaseWrite(range, Step(range, s, labels[0]), labels[1..], d, Releasing(s, labels[0], d, write))
  }

  lemma StepProgressesDeletion(range: Range, s: Server, d: Device, ok: bool, ref: SessionRef,
        row: Option<Reservation>, write: Option<bool>)
    requires GoodDevice(s, d) && RowKeyed(s, d) && MutuallyInverse(s.sessions) && d in s.tasks
    requires DeletionProgress(row, LocalOf(s, d), write)
    ensures DeletionProgress(row, LocalOf(StepTask(range, s, d, s.tasks[d], ok, ref), d),
                             Releasing(s, Advance(d, ok, ref), d, write))
  {
    hide StepRegister; hide StepUpdate; hide GoodRegister; hide GoodUpdate; hide PortsOf; hide StopPort;
  }

  lemma {:induction false} DeletionRuns(range: Range, s: Server, labels: seq<Label>, d: Device,
        row: Option<Reservation>, write: Option<bool>)
    requires Inv(s) && DeletionProgress(row, LocalOf(s, d), write) && Undisturbed(range, s, labels, d)
    ensures DeletionProgress(row, LocalOf(Run(range, s, labels), d), ReleaseWrite(range, s, labels, d, write))
    decreases |labels|
  {
    if labels == [] {
    } else {
      hide DeletionProgress; hide StepTask;
      var l := labels[0];
      StepKeepsInv(range, s, l);
      if l.Advance? && l.d == d && d in s.tasks {
        assert GoodDevice(s, d);
        StepProgressesDeletion(range, s, d, l.ok, l.ref, row, write);
      } else {
        OthersLeave(range, s, l, d);
      }
      DeletionRuns(range, Step(range, s, l), labels[1..], d, row, Releasing(s, l, d, write));
    }
  }

  /** A deletion leaves no session; if there was a reservation it has tried to delete it, and there is none
      if and only if that write went through, otherwise the same one up to the online flag. */
  lemma DeletionReleasesIff(range: Range, s: Server, labels: seq<Label>, d: Device)
    requires Inv(s) && d !in s.tasks && Undisturbed(range, Step(range, s, BeginDelete(d)), labels, d)
    ensures var s1 := Step(range, s, BeginDelete(d));
      var t := Run(range, s1, labels);
      var write := ReleaseWrite(range, s1, labels, d, None);
      d !in t.tasks ==>
        && SessionOf(t, d).None? && (RowOf(s, d).Some? ==> write.Some?)
        && (RowOf(t, d).None? <==> RowOf(s, d).None? || write == Some(true))
        && (RowOf(t, d).Some? ==> RowOf(t, d) == Some(RowOf(s, d).value.(online := RowOf(t, d).value.online)))
  {
    var s1 := Step(range, s, BeginDelete(d));
    StepKeepsInv(range, s, BeginDelete(d));
    assert DeletionProgress(RowOf(s, d), LocalOf(s1, d), None);
    DeletionRuns(range, s1, labels, d, RowOf(s, d), None);
  }

  // Bans ---------------------------------------------------------------------------------------------------

  /** The step in which the ban of `d` is saved decides what its write did. */
  function Saving(s: Server, l: Label, d: Device, write: Option<bool>): Option<bool> {
    if l.Advance? && l.d == d && d in s.tasks && s.tasks[d] == Drop(SaveBan) then Some(l.ok) else write
  }

  function BanWrite(range: Range, s: Server, labels: seq<Label>, d: Device, write: Option<bool>): Option<bool>
    decreases |labels|
  {
    if labels == [] then write
    else BanWrite(range, Step(range, s, labels[0]), labels[1..], d, Saving(s, labels[0], d, write))
  }

  /** How far a ban begun in `l0` has got; `write` says whether its write has been tried and has gone
      through. */
  ghost predicate BanProgress(l0: Local, l: Local, write: Option<bool>) {
    match l.task
    case None => write.Some? && (if write.value then l.banned else l.banned == l0.banned && Kept(l0, l))
    case Some(Drop(at)) =>
      if at.SaveBan? then write.None? && l.banned == l0.banned && Kept(l0, l)
      else write == Some(true) && l.banned && !at.ReleaseRow? && at.next.Finish?
    case _ => false
  }

  lemma StepProgressesBan(range: Range, s: Server, d: Device, ok: bool, ref: SessionRef, l0: Local,
        write: Option<bool>)
    requires BanProgress(l0, LocalOf(s, d), write) && d in s.tasks
    ensures BanProgress(l0, LocalOf(StepTask(range, s, d, s.tasks[d], ok, ref), d),
                        Saving(s, Advance(d, ok, ref), d, write))
  {
    hide StepRegister; hide StepUpdate; hide PortsOf; hide StopPort; hide RemoveByChannel;
    if s.tasks[d].drop.SaveBan? {
      assert LocalOf(StepTask(range, s, d, s.tasks[d], ok, ref), d).ports == LocalOf(s, d).ports;
    }
  }

  lemma {:induction false} BanRuns(range: Range, s: Server, labels: seq<Label>, d: Device, l0: Local,
        write: Option<bool>)
    requires Inv(s) && BanProgress(l0, LocalOf(s, d), write) && Undisturbed(range, s, labels, d)
    ensures BanProgress(l0, LocalOf(Run(range, s, labels), d), BanWrite(range, s, labels, d, write))
    decreases |labels|
  {
    if labels == [] {
    } else {
      hide BanProgress; hide StepTask;
      var l := labels[0];
      StepKeepsInv(range, s, l);
      if l.Advance? && l.d == d && d in s.tasks {
        StepProgressesBan(range, s, d, l.ok, l.ref, l0, write);
      } else {
        OthersLeave(range, s, l, d);
      }
      BanRuns(range, Step(range, s, l), labels[1..], d, l0, Saving(s, l, d, write));
    }
  }

  /** A ban is lifted exactly if that is saved. */
  lemma UnbanLiftsIff(range: Range, s: Server, d: Device, ok: bool)
    requires d !in s.tasks
    ensures d in Step(range, s, Unban(d, ok)).banned <==> d in s.banned && !ok
  {
  }

  /** A ban tries to save itself; once saved it leaves the device banned and without a session, and
      otherwise the ban list and all that concerns the device as they were. */
  lemma BanTakesEffectIff(range: Range, s: Server, labels: seq<Label>, d: Device)
    requires Inv(s) && d !in s.tasks && Undisturbed(range, Step(range, s, BeginBan(d)), labels, d)
    ensures var s1 := Step(range, s, BeginBan(d));
      var t := Run(range, s1, labels);
      var write := BanWrite(range, s1, labels, d, None);
      d !in t.tasks ==>
        && write.Some?
        && (if write.value then d in t.banned && SessionOf(t, d).None?
            else (d in t.banned <==> d in s.banned) && Kept(LocalOf(s, d), LocalOf(t, d)))
  {
    var s1 := Step(range, s, BeginBan(d));
    StepKeepsInv(range, s, BeginBan(d));
    assert BanProgress(LocalOf(s, d), LocalOf(s1, d), None);
    BanRuns(range, s1, labels, d, LocalOf(s, d), None);
    RunKeepsInv(range, s1, labels);
    assert GoodDevice(Run(range, s1, labels), d);
  }
}
