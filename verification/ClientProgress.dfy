/** What the client does get done when nothing comes between its steps: connecting and registering,
    clearing up after a failure, sending, and finishing a local connection; and which port it shows. */
module ClientProgress {
  import opened Wrappers
  import opened ForwardingTable
  import opened ControlConnection
  import opened ClientIsolation

  lemma RunTwo(limit: nat, c: Client, labels: seq<Label>)
    requires |labels| >= 2
    ensures Run(limit, c, labels) == Run(limit, Step(limit, Step(limit, c, labels[0]), labels[1]), labels[2..])
  {
    hide Step;
    assert labels[1..][1..] == labels[2..];
  }

  lemma RunThree(limit: nat, c: Client, labels: seq<Label>)
    requires |labels| >= 3
    ensures Run(limit, c, labels) ==
      Run(limit, Step(limit, Step(limit, Step(limit, c, labels[0]), labels[1]), labels[2]), labels[3..])
  {
    hide Step;
    RunTwo(limit, c, labels);
    assert labels[2..][1..] == labels[3..];
  }

  // ---------- connecting ----------

  function Connecting(g: Gen, port: int): seq<Label> {
    [Dial, Install(g), ShowConnected, Receive, Ack(port), ShowRegistered]
  }

  lemma Connects(limit: nat, c: Client, g: Gen)
    requires Inv(c, limit) && c.driver.Down? && c.failing.None? && !c.cancelled && g !in c.used
    ensures Step(limit, Step(limit, Step(limit, c, Dial), Install(g)), ShowConnected) ==
      c.(conn := Some(g), writer := Some(g), externalPort := 0, shown := Connected, driver := Reading(g),
         used := c.used + {g})
  {
    hide LocalStep; hide SendStep; hide EntriesOk; hide SendsOk; hide TableOk; hide ShownOk;
    var c1 := c.(shown := Shown.Connecting, driver := Dialing);
    assert Step(limit, c, Dial) == c1;
    var c2 := c1.(conn := Some(g), writer := Some(g), externalPort := 0, driver := Installed, used := c.used + {g});
    assert Step(limit, c1, Install(g)) == c2;
  }

  lemma Registers(limit: nat, c: Client, g: Gen, port: int)
    requires c.driver == Reading(g) && c.conn == Some(g) && !c.cancelled
    ensures Step(limit, Step(limit, Step(limit, c, Receive), Ack(port)), ShowRegistered) ==
      c.(externalPort := port, portOf := Some(g), shown := Registered)
  {
    var c1 := c.(driver := Handling(g));
    assert Step(limit, c, Receive) == c1;
    var c2 := c1.(externalPort := port, portOf := Some(g), driver := Acked(g));
    assert Step(limit, c1, Ack(port)) == c2;
  }

  /** A dial that succeeds, a read and an acknowledgement make a registered client, with the
      acknowledged port, on a connection that was never used before; nothing else changes. */
  lemma ConnectsAndRegisters(limit: nat, c: Client, g: Gen, port: int)
    requires Inv(c, limit) && c.driver.Down? && c.failing.None? && !c.cancelled && g !in c.used
    ensures Run(limit, c, Connecting(g, port)) ==
      c.(conn := Some(g), writer := Some(g), externalPort := port, portOf := Some(g), shown := Registered,
         driver := Reading(g), used := c.used + {g})
  {
    hide Step; hide Inv;
    var labels := Connecting(g, port);
    RunThree(limit, c, labels);
    Connects(limit, c, g);
    var d := Step(limit, Step(limit, Step(limit, c, labels[0]), labels[1]), labels[2]);
    RunThree(limit, d, labels[3..]);
    Registers(limit, d, g, port);
  }

  /** A dialled connection is installed exactly if the client has not been stopped and has none; nothing of
      an earlier one is left on it.  Otherwise the loop is back between connections. */
  lemma InstalledIff(limit: nat, c: Client, g: Gen)
    requires Inv(c, limit) && c.driver.Dialing? && c.failing.None? && g !in c.used
    ensures var d := Step(limit, c, Install(g));
      if c.cancelled || c.conn.Some? then d == c.(driver := Down)
      else d.conn == d.writer == Some(g) && d.externalPort == 0 && g in d.used && d.driver.Installed?
  {
    hide LocalStep; hide SendStep; hide EntriesOk; hide SendsOk; hide TableOk;
  }

  /** A failed dial shows Disconnected and lets the loop try again, which shows Reconnecting meanwhile. */
  lemma FailedDialRetries(limit: nat, c: Client)
    requires Inv(c, limit) && c.driver.Down? && !c.cancelled
    ensures Step(limit, Step(limit, c, Dial), DialFails) == c.(shown := Disconnected)
    ensures Step(limit, c, ShowReconnecting) == c.(shown := Reconnecting)
  {
    hide LocalStep; hide SendStep; hide FailStep; hide EntriesOk; hide SendsOk; hide TableOk; hide ShownOk;
    var c1 := c.(shown := Shown.Connecting, driver := Dialing);
    assert Step(limit, c, Dial) == c1;
  }

  /** A refused registration leaves the connection, shown as Connected, and other messages change nothing
      of it; either way the loop reads on. */
  lemma LoopReadsOn(limit: nat, c: Client, g: Gen)
    requires Inv(c, limit) && c.driver == Reading(g) && c.conn == Some(g) && !c.cancelled
    ensures Step(limit, Step(limit, c, Receive), Nack) == c.(shown := Connected)
    ensures Step(limit, Step(limit, c, Receive), HandleOther) == c
  {
    hide LocalStep; hide SendStep; hide EntriesOk; hide SendsOk; hide TableOk;
  }

  /** A read loop whose connection somebody else has failed only ends. */
  lemma LostLoopOnlyEnds(limit: nat, c: Client, g: Gen)
    requires Inv(c, limit) && c.driver == Reading(g) && c.conn != Some(g) && c.failing.None?
    ensures Step(limit, Step(limit, c, ReadFails), FailOwn) == c.(driver := Down)
  {
    hide LocalStep; hide SendStep; hide EntriesOk; hide SendsOk; hide TableOk;
  }

  lemma StoppedDriverShows(c: Client, l: Label)
    requires c.cancelled
    ensures var d := DriverStep(c, l); d.cancelled && (d.shown == c.shown || d.shown.Disconnected?)
  {
  }

  lemma StoppedOthersShow(c: Client, l: Label)
    requires c.cancelled
    ensures var d := FailStep(c, l); d.cancelled && (d.shown == c.shown || d.shown.Disconnected?)
    ensures var d := SendStep(c, l); d.cancelled && d.shown == c.shown
  {
  }

  /** Once the client has been stopped, nothing but Disconnected is shown any more. */
  lemma StoppedShowsDisconnected(limit: nat, c: Client, l: Label)
    requires c.cancelled
    ensures var d := Step(limit, c, l); d.cancelled && (d.shown == c.shown || d.shown.Disconnected?)
  {
    hide LocalStep; hide DriverStep; hide FailStep; hide SendStep;
    StoppedDriverShows(c, l);
    StoppedOthersShow(c, l);
    LocalKeepsSends(c, limit, l);
  }

  /** A message that was read is handled exactly while its connection is the current one and the client
      has not been stopped; otherwise the read loop ends. */
  lemma HandledIff(limit: nat, c: Client)
    requires c.driver.Reading?
    ensures var d := Step(limit, c, Receive);
      && (d.driver == Handling(c.driver.g) <==> c.conn == Some(c.driver.g) && !c.cancelled)
      && (d.driver.Handling? || d.driver == Ended(c.driver.g)) && d == c.(driver := d.driver)
  {
  }

  /** An acknowledgement takes effect: a connection is installed and the client has not been stopped. */
  predicate Acknowledges(c: Client, l: Label) { l.Ack? && c.driver.Handling? && c.conn.Some? && !c.cancelled }

  /** The port of the last acknowledgement that took effect on the connection there is now, 0 before any
      and without a connection; `port` is the one so far. */
  function LastAcknowledged(limit: nat, c: Client, labels: seq<Label>, port: int): int
    decreases |labels|
  {
    if labels == [] then port
    else
      var d := Step(limit, c, labels[0]);
      var next := if Acknowledges(c, labels[0]) then labels[0].port
                  else if d.conn == c.conn then port else 0;
      LastAcknowledged(limit, d, labels[1..], next)
  }

  lemma DriverShowsPort(c: Client, l: Label)
    requires ConnectionOk(c) && DriverOk(c)
    ensures var d := DriverStep(c, l);
      d.externalPort == if Acknowledges(c, l) then l.port else if d.conn == c.conn then c.externalPort else 0
  {
  }

  lemma OthersShowPort(c: Client, l: Label)
    requires ConnectionOk(c)
    ensures var d := FailStep(c, l); d.externalPort == if d.conn == c.conn then c.externalPort else 0
    ensures var d := SendStep(c, l); d.externalPort == c.externalPort && d.conn == c.conn
  {
  }

  lemma StepShowsPort(limit: nat, c: Client, l: Label)
    requires Inv(c, limit)
    ensures var d := Step(limit, c, l);
      d.externalPort == if Acknowledges(c, l) then l.port else if d.conn == c.conn then c.externalPort else 0
  {
    hide LocalStep; hide DriverStep; hide FailStep; hide SendStep;
    DriverShowsPort(c, l);
    OthersShowPort(c, l);
    LocalKeepsSends(c, limit, l);
  }

  /** The port the client shows is exactly that. */
  lemma {:induction false} PortIsLastAcknowledged(limit: nat, c: Client, labels: seq<Label>)
    requires Inv(c, limit)
    ensures Run(limit, c, labels).externalPort == LastAcknowledged(limit, c, labels, c.externalPort)
    decreases |labels|
  {
    if labels == [] {
    } else {
      hide Inv; hide Step; hide Acknowledges;
      StepKeepsInv(c, limit, labels[0]);
      StepShowsPort(limit, c, labels[0]);
      PortIsLastAcknowledged(limit, Step(limit, c, labels[0]), labels[1..]);
    }
  }

  // ---------- failing ----------

  /** Once anybody fails the current connection, it is gone with its port, all local connections and
      the memory of closed IDs, and the client shows Disconnected. */
  lemma FailureClearsUp(limit: nat, c: Client, g: Gen)
    requires Inv(c, limit) && c.conn == Some(g) && c.creating.None?
    ensures Run(limit, c, [Fail(g), Sweep, EndFail, Publish]) ==
      c.(conn := None, writer := None, externalPort := 0, table := EMPTY_TABLE, shown := Disconnected)
  {
    hide LocalStep; hide SendStep; hide EntriesOk; hide SendsOk; hide TableOk; hide ShownOk;
    var labels := [Fail(g), Sweep, EndFail, Publish];
    RunTwo(limit, c, labels);
    var c1 := c.(conn := None, writer := None, externalPort := 0, failing := Some(Sweeping(g, false)));
    assert Step(limit, c, labels[0]) == c1;
    var c2 := c1.(table := EMPTY_TABLE, failing := Some(Swept(g, false)));
    assert Step(limit, c1, labels[1]) == c2;
    RunTwo(limit, c2, labels[2..]);
    var c3 := c2.(failing := None, publishers := c.publishers + 1);
    assert Step(limit, c2, labels[2]) == c3;
    assert Step(limit, c3, labels[3]) == c3.(shown := Disconnected, publishers := c.publishers);
  }

  function OwnFailure(): seq<Label> { [ReadFails, FailOwn, Sweep, EndFail, PublishOwn] }

  lemma ReadLoopEnds(limit: nat, c: Client, g: Gen)
    requires c.failing.None? && c.driver == Reading(g) && c.conn == Some(g) && c.creating.None?
    ensures Step(limit, Step(limit, Step(limit, c, ReadFails), FailOwn), Sweep) ==
      c.(conn := None, writer := None, externalPort := 0, table := EMPTY_TABLE, failing := Some(Swept(g, true)),
         driver := Failed(g))
  {
    hide LocalStep; hide SendStep; hide EntriesOk; hide SendsOk; hide TableOk; hide ShownOk;
    var c1 := c.(driver := Ended(g));
    assert Step(limit, c, ReadFails) == c1;
    var c2 := c1.(conn := None, writer := None, externalPort := 0, failing := Some(Sweeping(g, true)),
                  driver := Failed(g));
    assert Step(limit, c1, FailOwn) == c2;
    assert Step(limit, c2, Sweep) == c2.(table := EMPTY_TABLE, failing := Some(Swept(g, true)));
  }

  /** So does the end of the read loop, after which the loop may dial again. */
  lemma ReadFailureClearsUp(limit: nat, c: Client, g: Gen)
    requires Inv(c, limit) && c.driver == Reading(g) && c.conn == Some(g) && c.creating.None?
    ensures Run(limit, c, OwnFailure()) ==
      c.(conn := None, writer := None, externalPort := 0, table := EMPTY_TABLE, shown := Disconnected, driver := Down)
  {
    hide LocalStep; hide SendStep; hide EntriesOk; hide SendsOk; hide TableOk; hide ShownOk;
    var failing := c.failing;
    assert failing.None?;
    hide Inv;
    var labels := OwnFailure();
    RunThree(limit, c, labels);
    ReadLoopEnds(limit, c, g);
    var d := Step(limit, Step(limit, Step(limit, c, labels[0]), labels[1]), labels[2]);
    RunTwo(limit, d, labels[3..]);
    var d1 := d.(failing := None, driver := Publishing);
    assert Step(limit, d, labels[3]) == d1;
    assert Step(limit, d1, labels[4]) == d1.(shown := Disconnected, driver := Down);
  }

  // ---------- sending ----------

  /** A send reaches the wire exactly if it is for the current connection, made by one of its own local
      connections or by none, and the client has not been stopped. */
  lemma WrittenIff(limit: nat, c: Client, origin: Gen, source: Option<EntryRef>)
    requires Inv(c, limit) && c.sending.None?
    ensures var d := Step(limit, Step(limit, c, CheckSend(origin, source)), Write);
      var own := source.Some? ==> source.value in c.entries && c.entries[source.value].control == origin;
      d == if c.conn == Some(origin) && !c.cancelled && own
           then c.(wire := c.wire + [Sending(origin, origin, source)]) else c
  {
  }

  // ---------- local connections ----------

  /** The first message for a new ID on the current connection opens a local connection of that
      connection's generation. */
  lemma FirstMessageOpens(limit: nat, c: Client, g: Gen, id: Id, ref: EntryRef)
    requires Inv(c, limit) && c.conn == Some(g) && c.creating.None? && id != "" && ref !in c.entries
    requires id !in c.table.closed && id !in c.table.entries && |c.table.entries| < limit
    ensures Step(limit, Step(limit, c, CheckCreate(id, g)), Create(ref, true)) ==
      c.(table := c.table.(entries := c.table.entries[id := ref]), entries := c.entries[ref := Entry(id, g)])
  {
  }

  /** A creator passes its check exactly for a named ID and the current connection. */
  lemma CreatorPassesIff(limit: nat, c: Client, id: Id, g: Gen)
    requires c.creating.None?
    ensures var d := Step(limit, c, CheckCreate(id, g));
      d == c.(creating := if id != "" && c.conn == Some(g) then Some(Creating(id, g)) else None)
  {
  }

  /** A local connection that ends leaves the table, and its ID is remembered; the others stay. */
  lemma FinishedLeaves(limit: nat, c: Client, id: Id)
    requires Inv(c, limit) && c.creating.None? && id in c.table.entries && c.table.entries[id] !in c.claimed
    ensures var ref := c.table.entries[id];
      var d := Step(limit, Step(limit, c, CallFinish(ref)), FinishEntry(ref));
      && d.table.entries == c.table.entries - {id} && id in d.table.closed
      && d.finishing == c.finishing - {ref} && d.claimed == c.claimed + {ref}
  {
    hide DriverStep; hide FailStep; hide SendStep; hide DriverOk; hide ConnectionOk; hide ShownOk; hide SendsOk;
    assert EntryOk(c, id, c.table.entries[id]);
    FinishedIdsAreRemembered(c.table, id, c.table.entries[id]);
  }

  lemma CloseRemoteClaims(limit: nat, c: Client, id: Id)
    requires c.creating.None? && id in c.table.entries
    requires c.table.entries[id] in c.claimed ==> c.table.entries[id] in c.finishing
    ensures var d := Step(limit, c, CloseRemote(id));
      && d.table == CloseById(c.table, id).0 && c.table.entries[id] in d.finishing
      && d.entries == c.entries && d.creating.None?
  {
    hide Remember;
  }

  /** A close notification from the server does the same to the connection it names; without one it only
      makes the ID remembered. */
  lemma ClosedByServerLeaves(limit: nat, c: Client, id: Id)
    requires Inv(c, limit) && c.creating.None?
    ensures var d := Step(limit, c, CloseRemote(id));
      && id in d.table.closed && d.table.entries == c.table.entries
      && (id in c.table.entries ==> c.table.entries[id] in d.finishing)
      && (id in c.table.entries ==>
            var t := Step(limit, d, FinishEntry(c.table.entries[id])).table;
            t.entries == c.table.entries - {id} && id in t.closed)
  {
    hide DriverOk; hide ConnectionOk; hide ShownOk; hide SendsOk; hide CloseById; hide Finish; hide Remember;
    hide DriverStep; hide FailStep; hide SendStep;
    FinishedIdsAreRemembered(c.table, id, 0);
    if id in c.table.entries {
      var ref := c.table.entries[id];
      assert EntryOk(c, id, ref);
      CloseRemoteClaims(limit, c, id);
      CriticalSectionsKeepTable(c.table, id, ref, limit, true);
      FinishedIdsAreRemembered(CloseById(c.table, id).0, id, ref);
      var d := Step(limit, c, CloseRemote(id));
      assert Step(limit, d, FinishEntry(ref)).table == Finish(d.table, id, ref);
    }
  }

  /** When `Stop` has been called, its sweep leaves no local connection. */
  lemma StopSweepsAll(limit: nat, c: Client)
    requires c.creating.None?
    ensures Step(limit, Step(limit, c, Cancel), StopSweep).table == EMPTY_TABLE
  {
  }
}
