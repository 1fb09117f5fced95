/** External connections of `RawDataHandler` and the ownership gate of `ProxyHandler` as a step
    system.  Three concurrent maps index a connection by channel and by connection ID; opening,
    cleanups from several threads, and messages from control channels interleave step by step,
    and sessions are replaced meanwhile.

    Environment: the server announces a connection's ID only once `channelActive` is over, and the
    control channel of the connection's own session names it only then.  Any other channel may name
    it from the moment its opening begins. */
module ExternalConnections {
  import opened Wrappers
  import opened Reservations
  import opened Sessions

  type User = int

  /** `channel.id().asLongText()`: one text per channel. */
  datatype ConnectionId = LongText(user: User)

  /** Where `channelActive` of a connection is, for the session it looked up. */
  datatype OpenPoint =
    | PutSession(d: Device, ref: SessionRef)
    | PutUser(d: Device, ref: SessionRef)
    | PutId(d: Device, ref: SessionRef)
    | Admit(d: Device, ref: SessionRef)
    | Recheck(d: Device, ref: SessionRef)

  /** Where the one cleanup that won the flag is, with what it has taken so far. */
  datatype CleanPoint =
    | TakeSession(notify: bool)
    | TakeId(notify: bool, session: Option<SessionRef>)
    | TakeUser(notify: bool, session: Option<SessionRef>, id: Option<ConnectionId>)
    | Unlist(notify: bool, session: Option<SessionRef>, id: Option<ConnectionId>)
    | Notify(notify: bool, session: Option<SessionRef>, id: Option<ConnectionId>)

  /** Where `ownsConnection` is: one point before each of its reads. */
  datatype GatePoint = FindUser | FindOwner(user: User) | CheckSession(ref: SessionRef) | CheckCurrent(ref: SessionRef)

  /** A message of control channel `c` about connection `id` inside the gate. */
  datatype Gate = Gate(c: Channel, id: ConnectionId, at: GatePoint)

  /** A control message that passed `ownsConnection` and has not acted yet. */
  datatype Permit = Permit(c: Channel, id: ConnectionId)

  datatype Sent = Sent(c: Channel, user: User)

  /** The three concurrent maps, and `listed`: the connections in the connection table of the port
      that accepted them. */
  datatype Index = Index(
    userToSession: map<User, SessionRef>,
    connectionIdToUser: map<ConnectionId, User>,
    userToConnectionId: map<User, ConnectionId>,
    listed: set<User>)

  /** Progress of each connection: opening, closed, its one cleanup and who asked for it. */
  datatype Life = Life(
    opening: map<User, OpenPoint>,
    announced: set<User>,
    closed: set<User>,
    cleanupStarted: set<User>,
    requested: set<User>,
    cleaning: map<User, CleanPoint>)
  {
    /** Only the first caller gets past the flag. */
    function StartCleanup(u: User, notify: bool): Life {
      if u in cleanupStarted then this
      else Life(opening, announced, closed, cleanupStarted + {u}, requested + (if notify then {} else {u}),
                cleaning[u := TakeSession(notify)])
    }

    function Close(u: User): Life { this.(closed := closed + {u}) }
  }

  /** `owner`, `written`, `requests`, `overflows` and `notices` are history: the session each
      connection was opened for, who wrote to whom, who had whom closed, by request or with data
      that did not fit, and the close notifications sent; so is
      `life.requested`, the connections whose cleanup was their client's. */
  datatype Handler = Handler(
    sessions: SessionTables,
    dead: set<Channel>,
    index: Index,
    life: Life,
    gates: set<Gate>,
    permits: set<Permit>,
    owner: map<User, SessionRef>,
    written: seq<Sent>,
    requests: seq<Sent>,
    overflows: seq<Sent>,
    notices: seq<Sent>)

  datatype Label =
    | Lifecycle(sessions: SessionTables, dead: set<Channel>)
    | ClosePort(users: set<User>)
    | Open(u: User, d: Device)
    | Proceed(u: User, admitted: bool)
    | UserCloses(u: User)
    | BeginCleanup(u: User)
    | Clean(u: User)
    | Arrive(c: Channel, u: User)
    | Pass(g: Gate)
    | SendData(p: Permit, fits: bool)
    | CloseRequest(p: Permit)

  function Empty(sessions: SessionTables): Handler {
    Handler(sessions, {}, Index(map[], map[], map[], {}), Life(map[], {}, {}, {}, {}, map[]),
            {}, {}, map[], [], [], [], [])
  }

  /** Session objects are never discarded and never change channel; channels stay dead. */
  predicate Evolves(s: Handler, sessions: SessionTables, dead: set<Channel>) {
    && s.dead <= dead
    && forall r | r in s.sessions.objects ::
         r in sessions.objects && sessions.objects[r].channel == s.sessions.objects[r].channel
  }

  predicate SessionActive(s: Handler, ref: SessionRef) {
    ref in s.sessions.objects && s.sessions.objects[ref].status.ONLINE? && s.sessions.objects[ref].channel !in s.dead
  }

  /** What `ownsConnection` asks, as if at one moment: the connection's session is active, is the
      channel's, and is current. */
  predicate Owns(s: Handler, c: Channel, id: ConnectionId) {
    && id in s.index.connectionIdToUser
    && s.index.connectionIdToUser[id] in s.index.userToSession
    && var ref := s.index.userToSession[s.index.connectionIdToUser[id]];
    && SessionActive(s, ref) && s.sessions.objects[ref].channel == c
    && SessionByChannel(s.sessions, c) == Some(ref)
  }

  datatype GateVerdict = Stopped | ReadOn(at: GatePoint) | Through

  /** One read of `ownsConnection` and what follows from it. */
  function GateRead(s: Handler, g: Gate): GateVerdict {
    match g.at
    case FindUser =>
      if g.id in s.index.connectionIdToUser then ReadOn(FindOwner(s.index.connectionIdToUser[g.id])) else Stopped
    case FindOwner(user) =>
      if user in s.index.userToSession then ReadOn(CheckSession(s.index.userToSession[user])) else Stopped
    case CheckSession(ref) =>
      if SessionActive(s, ref) && s.sessions.objects[ref].channel == g.c then ReadOn(CheckCurrent(ref)) else Stopped
    case CheckCurrent(ref) =>
      if SessionByChannel(s.sessions, g.c) == Some(ref) then Through else Stopped
  }

  function GateStep(s: Handler, g: Gate): Handler {
    var left := s.(gates := s.gates - {g});
    match GateRead(s, g)
    case Stopped => left
    case ReadOn(at) => left.(gates := left.gates + {g.(at := at)})
    case Through => left.(permits := left.permits + {Permit(g.c, g.id)})
  }

  function OpenAt(life: Life, u: User, at: OpenPoint): Life { life.(opening := life.opening[u := at]) }

  function OpenStep(s: Handler, u: User, at: OpenPoint, admitted: bool): Handler {
    match at
    case PutSession(d, ref) =>
      s.(index := s.index.(userToSession := s.index.userToSession[u := ref]),
         life := OpenAt(s.life, u, PutUser(d, ref)), owner := s.owner[u := ref])
    case PutUser(d, ref) =>
      s.(index := s.index.(connectionIdToUser := s.index.connectionIdToUser[LongText(u) := u]),
         life := OpenAt(s.life, u, PutId(d, ref)))
    case PutId(d, ref) =>
      s.(index := s.index.(userToConnectionId := s.index.userToConnectionId[u := LongText(u)]),
         life := OpenAt(s.life, u, Admit(d, ref)))
    case Admit(d, ref) =>
      // Refused by a listener that is not the port's any more, the connection is closed.
      if admitted then s.(index := s.index.(listed := s.index.listed + {u}), life := OpenAt(s.life, u, Recheck(d, ref)))
      else s.(life := OpenAt(s.life.Close(u), u, Recheck(d, ref)))
    case Recheck(d, ref) =>
      var open := s.life.(opening := s.life.opening - {u});
      if !SessionActive(s, ref) || d !in s.sessions.sessionMap || s.sessions.sessionMap[d] != ref
      then s.(life := open.Close(u).StartCleanup(u, true))
      else s.(life := open.(announced := open.announced + {u}))
  }

  function CleanAt(life: Life, u: User, at: CleanPoint): Life { life.(cleaning := life.cleaning[u := at]) }

  function CleanStep(s: Handler, u: User, at: CleanPoint): Handler {
    match at
    case TakeSession(notify) =>
      var session := if u in s.index.userToSession then Some(s.index.userToSession[u]) else None;
      s.(index := s.index.(userToSession := s.index.userToSession - {u}),
         life := CleanAt(s.life, u, TakeId(notify, session)))
    case TakeId(notify, session) =>
      var id := if u in s.index.userToConnectionId then Some(s.index.userToConnectionId[u]) else None;
      s.(index := s.index.(userToConnectionId := s.index.userToConnectionId - {u}),
         life := CleanAt(s.life, u, TakeUser(notify, session, id)))
    case TakeUser(notify, session, id) =>
      s.(index := if id.Some? then s.index.(connectionIdToUser := s.index.connectionIdToUser - {id.value}) else s.index,
         life := CleanAt(s.life, u, Unlist(notify, session, id)))
    case Unlist(notify, session, id) =>
      s.(index := s.index.(listed := s.index.listed - {u}), life := CleanAt(s.life, u, Notify(notify, session, id)))
    case Notify(notify, session, id) =>
      s.(life := s.life.(cleaning := s.life.cleaning - {u}),
         notices := s.notices + if notify && id.Some? && session.Some? && ChannelAlive(s, session.value)
                                then [Sent(s.sessions.objects[session.value].channel, id.value.user)] else [])
  }

  predicate ChannelAlive(s: Handler, ref: SessionRef) {
    ref in s.sessions.objects && s.sessions.objects[ref].channel !in s.dead
  }

  /** The user a permitted message finds, if it is still there and open. */
  function Target(s: Handler, p: Permit): Option<User> {
    if p.id in s.index.connectionIdToUser && s.index.connectionIdToUser[p.id] !in s.life.closed
    then Some(s.index.connectionIdToUser[p.id]) else None
  }

  function Spend(s: Handler, p: Permit): Handler { s.(permits := s.permits - {p}) }

  /** `u` is being opened, or was opened, for the session of another channel. */
  predicate Stranger(s: Handler, c: Channel, u: User) {
    || (u in s.owner && s.owner[u] in s.sessions.objects && s.sessions.objects[s.owner[u]].channel != c)
    || (u in s.life.opening && s.life.opening[u].ref in s.sessions.objects
        && s.sessions.objects[s.life.opening[u].ref].channel != c)
  }

  function Step(s: Handler, l: Label): Handler {
    match l
    case Lifecycle(sessions, dead) => if Evolves(s, sessions, dead) then s.(sessions := sessions, dead := dead) else s
    case ClosePort(users) =>
      // `closeConnections` of a port, or the end of its listener.
      if users <= s.index.listed
      then s.(index := s.index.(listed := s.index.listed - users), life := s.life.(closed := s.life.closed + users))
      else s
    case Open(u, d) =>
      // A channel opens once; without an active session it is closed at once.
      if u in s.owner || u in s.life.opening || u in s.life.closed then s
      else if HasSession(s.sessions, d) && SessionActive(s, s.sessions.sessionMap[d])
      then s.(life := OpenAt(s.life, u, PutSession(d, s.sessions.sessionMap[d])))
      else s.(life := s.life.Close(u))
    case Proceed(u, admitted) => if u in s.life.opening then OpenStep(s, u, s.life.opening[u], admitted) else s
    case UserCloses(u) => s.(life := s.life.Close(u))
    case BeginCleanup(u) =>
      // The channel's own events (inactive, exception, failed write) come after channelActive.
      if u in s.life.opening || (u !in s.life.announced && u !in s.life.closed) then s
      else s.(life := s.life.StartCleanup(u, true))
    case Clean(u) => if u in s.life.cleaning then CleanStep(s, u, s.life.cleaning[u]) else s
    case Arrive(c, u) =>
      if u in s.life.announced || Stranger(s, c, u) then s.(gates := s.gates + {Gate(c, LongText(u), FindUser)}) else s
    case Pass(g) => if g in s.gates then GateStep(s, g) else s
    case SendData(p, fits) =>
      var target := Target(s, p);
      if p !in s.permits then s
      else if target.None? then Spend(s, p)
      else if fits then Spend(s, p).(written := s.written + [Sent(p.c, target.value)])
      else Spend(s, p).(life := s.life.Close(target.value).StartCleanup(target.value, true),
                        overflows := s.overflows + [Sent(p.c, target.value)])
    case CloseRequest(p) =>
      var target := Target(s, p);
      if p !in s.permits then s
      else if target.None? then
        Spend(s, p).(index := s.index.(connectionIdToUser := s.index.connectionIdToUser - {p.id}))
      else Spend(s, p).(life := s.life.Close(target.value).StartCleanup(target.value, false),
                        requests := s.requests + [Sent(p.c, target.value)])
  }

  function Run(s: Handler, labels: seq<Label>): Handler
    decreases |labels|
  {
    if labels == [] then s else Run(Step(s, labels[0]), labels[1..])
  }
}
