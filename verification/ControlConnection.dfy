/** The Go client's control connections, one generation at a time, as a step system over its
    locks.  `sessionMu` is held from the moment a failing connection is uninstalled until its
    local connections are swept; `connMu` is held by a creator between its check of the current
    connection and its insertion; `writeMu` by a sender between its check and its write.

    One task, the driver (`runConnections`), connects and reads; any task may fail a connection
    with any generation it remembers, create and finish local connections, and send. */
module ControlConnection {
  import opened Wrappers
  import opened ForwardingTable

  type Gen = int

  datatype Shown = Disconnected | Connecting | Connected | Registered | Reconnecting

  /** A local connection: its ID and the generation it was created for. */
  datatype Entry = Entry(id: Id, control: Gen)

  /** `failConn` while it holds `sessionMu`; `driver` says whether the driver itself called it. */
  datatype Failing = Sweeping(g: Gen, driver: bool) | Swept(g: Gen, driver: bool)

  /** A creator holding `connMu` after its check. */
  datatype Creating = Creating(id: Id, control: Gen)

  /** A sender holding `writeMu` after its check: the writer it captured, the generation its
      caller passed, and the local connection it sends for, if any. */
  datatype Sending = Sending(writer: Gen, origin: Gen, source: Option<EntryRef>)

  datatype Driver =
    | Down                    // between connections
    | Dialing                 // connect(), socket being dialled
    | Installed               // connection installed, Connected not yet shown
    | Reading(g: Gen)         // read loop
    | Handling(g: Gen)        // one message passed the currentConn check
    | Acked(g: Gen)           // ACK stored, Registered not yet shown
    | Ended(g: Gen)           // read loop over, failConn next
    | Failed(g: Gen)          // inside its own failConn
    | Publishing              // its failConn has yet to show Disconnected

  /** `portOf` is history: the generation whose read loop stored `externalPort`.
      `finishing` has the entries whose once-only finisher has been called and has not yet been
      through the table; `claimed` those whose finisher has been called at all. */
  datatype Client = Client(
    conn: Option<Gen>,
    writer: Option<Gen>,
    externalPort: int,
    portOf: Option<Gen>,
    shown: Shown,
    cancelled: bool,
    failing: Option<Failing>,
    creating: Option<Creating>,
    sending: Option<Sending>,
    table: Table,
    entries: map<EntryRef, Entry>,
    finishing: set<EntryRef>,
    claimed: set<EntryRef>,
    publishers: nat,
    driver: Driver,
    used: set<Gen>,
    wire: seq<Sending>)

  datatype Label =
    // the driver
    | Dial | DialFails | Install(g: Gen) | ShowConnected | Receive | Ack(port: int) | Nack | ShowRegistered
    | HandleOther | ReadFails | FailOwn | ShowReconnecting | PublishOwn
    // failConn by anybody
    | Fail(g: Gen) | Sweep | EndFail | Publish
    // Stop's own sweep, without sessionMu
    | StopSweep
    // local connections
    | CheckCreate(id: Id, control: Gen) | Create(ref: EntryRef, launched: bool)
    | CloseRemote(id: Id) | CallFinish(ref: EntryRef) | FinishEntry(ref: EntryRef)
    // sends
    | CheckSend(origin: Gen, source: Option<EntryRef>) | Write
    | Cancel

  const START := Client(
    None, None, 0, None, Disconnected, false, None, None, None, EMPTY_TABLE, map[], {}, {}, 0, Down, {}, [])

  /** `setState`: a late state of a connection that is gone, or a late Disconnected, is dropped. */
  function SetState(c: Client, shown: Shown): Client {
    if (shown.Connected? || shown.Registered?) && c.conn.None? then c
    else if shown.Disconnected? && c.conn.Some? then c
    else if !shown.Disconnected? && c.cancelled then c
    else c.(shown := shown)
  }

  /** The locked part of `failConn` up to the sweep; a generation that is not current is ignored. */
  function BeginFail(c: Client, g: Gen, driver: bool): Client {
    c.(conn := None, writer := None, externalPort := 0, failing := Some(Sweeping(g, driver)))
  }

  function DriverStep(c: Client, l: Label): Client {
    match l
    case Dial => if c.driver.Down? && !c.cancelled then SetState(c, Connecting).(driver := Dialing) else c
    case DialFails => if c.driver.Dialing? then SetState(c, Disconnected).(driver := Down) else c
    case Install(g) =>
      if !c.driver.Dialing? || c.failing.Some? || g in c.used then c
      else if c.cancelled || c.conn.Some? then c.(driver := Down)
      else c.(conn := Some(g), writer := Some(g), externalPort := 0, driver := Installed, used := c.used + {g})
    case ShowConnected =>
      if !c.driver.Installed? then c
      else SetState(c, Connected).(driver := if c.conn.Some? then Reading(c.conn.value) else Down)
    case Receive =>
      if !c.driver.Reading? then c
      else c.(driver := if c.cancelled || c.conn != Some(c.driver.g) then Ended(c.driver.g) else Handling(c.driver.g))
    case Ack(port) =>
      if !c.driver.Handling? then c
      else if c.conn.None? || c.cancelled then c.(driver := Reading(c.driver.g))
      else c.(externalPort := port, portOf := Some(c.driver.g), driver := Acked(c.driver.g))
    case Nack =>
      if !c.driver.Handling? then c
      else if c.conn.None? || c.cancelled then c.(driver := Reading(c.driver.g))
      else SetState(c, Connected).(driver := Reading(c.driver.g))
    case ShowRegistered => if c.driver.Acked? then SetState(c, Registered).(driver := Reading(c.driver.g)) else c
    case HandleOther => if c.driver.Handling? then c.(driver := Reading(c.driver.g)) else c
    case ReadFails => if c.driver.Reading? then c.(driver := Ended(c.driver.g)) else c
    case FailOwn =>
      if !c.driver.Ended? || c.failing.Some? then c
      else if c.conn != Some(c.driver.g) then c.(driver := Down)
      else BeginFail(c, c.driver.g, true).(driver := Failed(c.driver.g))
    case PublishOwn => if c.driver.Publishing? then SetState(c, Disconnected).(driver := Down) else c
    case ShowReconnecting => if c.driver.Down? then SetState(c, Reconnecting) else c
    case _ => c
  }

  function FailStep(c: Client, l: Label): Client {
    match l
    case Fail(g) =>
      if c.failing.Some? || c.conn != Some(g) then c else BeginFail(c, g, false)
    case Sweep =>
      // closeAllLocalConns: every swept entry is then finished without a notification.
      if c.failing.None? || !c.failing.value.Sweeping? || c.creating.Some? then c
      else c.(table := EMPTY_TABLE, failing := Some(Swept(c.failing.value.g, c.failing.value.driver)))
    case EndFail =>
      if c.failing.None? || !c.failing.value.Swept? then c
      else if c.failing.value.driver then c.(failing := None, driver := Publishing)
      else c.(failing := None, publishers := c.publishers + 1)
    case StopSweep => if !c.cancelled || c.creating.Some? then c else c.(table := EMPTY_TABLE)
    case Publish => if c.publishers == 0 then c else SetState(c, Disconnected).(publishers := c.publishers - 1)
    case _ => c
  }

  function LocalStep(limit: nat, c: Client, l: Label): Client {
    match l
    case CheckCreate(id, control) =>
      // `control` was the current connection when the caller looked; connMu is taken, then checked.
      if c.creating.Some? || id == "" || c.conn != Some(control) then c
      else c.(creating := Some(Creating(id, control)))
    case Create(ref, launched) =>
      if c.creating.None? || ref in c.entries then c
      else
        var id := c.creating.value.id;
        var (table, r) := Reserve(c.table, id, ref, limit, launched);
        c.(table := table, creating := None,
           entries := if r.Created? then c.entries[ref := Entry(id, c.creating.value.control)] else c.entries)
    case CloseRemote(id) =>
      if c.creating.Some? then c
      else
        var (table, found) := CloseById(c.table, id);
        var calls := found.Some? && found.value !in c.claimed;
        c.(table := table, finishing := c.finishing + if calls then {found.value} else {},
           claimed := c.claimed + if found.Some? then {found.value} else {})
    case CallFinish(ref) =>
      if ref !in c.entries || ref in c.claimed then c
      else c.(claimed := c.claimed + {ref}, finishing := c.finishing + {ref})
    case FinishEntry(ref) =>
      if c.creating.Some? || ref !in c.finishing || ref !in c.entries then c
      else c.(table := Finish(c.table, c.entries[ref].id, ref), finishing := c.finishing - {ref})
    case _ => c
  }

  function SendStep(c: Client, l: Label): Client {
    match l
    case CheckSend(origin, source) =>
      // A reader of a local connection passes that connection's generation; notifications and
      // heartbeats pass the generation they were made for.
      if source.Some? && (source.value !in c.entries || c.entries[source.value].control != origin) then c
      else if c.sending.Some? || c.cancelled || c.conn != Some(origin) || c.writer.None? then c
      else c.(sending := Some(Sending(c.writer.value, origin, source)))
    case Write => if c.sending.None? then c else c.(wire := c.wire + [c.sending.value], sending := None)
    case Cancel => c.(cancelled := true)
    case _ => c
  }

  function Step(limit: nat, c: Client, l: Label): Client {
    if l.Fail? || l.Sweep? || l.EndFail? || l.StopSweep? || l.Publish? then FailStep(c, l)
    else if l.CheckCreate? || l.Create? || l.CloseRemote? || l.CallFinish? || l.FinishEntry? then LocalStep(limit, c, l)
    else if l.CheckSend? || l.Write? || l.Cancel? then SendStep(c, l)
    else DriverStep(c, l)
  }

  function Run(limit: nat, c: Client, labels: seq<Label>): Client
    decreases |labels|
  {
    if labels == [] then c else Run(limit, Step(limit, c, labels[0]), labels[1..])
  }
}
