/** What becomes of an external connection and of the messages for it: which data is written and which
    closes the connection, when a connection is announced at all, and that every opening and every
    cleanup comes to its end, whatever interleaves. */
module ExternalDelivery {
  import opened Wrappers
  import opened Reservations
  import opened Sessions
  import opened ExternalConnections
  import opened ExternalOwnership
  import PendingBytes

  // Messages that passed the gate --------------------------------------------------------------------

  /** The permit's connection has its ID entry and is open. */
  predicate Reaches(s: Handler, p: Permit) { p.id in s.index.connectionIdToUser && p.id.user !in s.life.closed }

  /** A data message that passed the gate is written to its connection, by its channel, if and only if the
      connection is there and the data fits; the connection is closed, its cleanup started and the overflow
      recorded if and only if it does not fit; and for a connection that is gone nothing happens. */
  lemma DataIsWrittenIff(s: Handler, p: Permit, fits: bool)
    requires Inv(s) && p in s.permits
    ensures var s' := Step(s, SendData(p, fits));
      var (u, sent) := (p.id.user, [Sent(p.c, p.id.user)]);
      && s'.written == s.written + (if Reaches(s, p) && fits then sent else [])
      && s'.overflows == s.overflows + (if Reaches(s, p) && !fits then sent else [])
      && s'.requests == s.requests && s'.notices == s.notices && s'.index == s.index
      && s'.permits == s.permits - {p}
      && (if Reaches(s, p) && !fits then ClosedBy(s, s', u, true) else s'.life == s.life)
  {
    PermittedIsOpen(s, p);
    assert s.written + [] == s.written && s.overflows + [] == s.overflows;
  }

  /** `u` has been closed, and unless its cleanup was under way or over, it has been started now. */
  predicate ClosedBy(s: Handler, s': Handler, u: User, notify: bool) {
    && s'.life.closed == s.life.closed + {u} && u in s'.life.cleanupStarted
    && (u !in s.life.cleanupStarted ==>
          u in s'.life.cleaning && s'.life.cleaning[u] == TakeSession(notify)
          && (u in s'.life.requested <==> !notify || u in s.life.requested))
    && (u in s.life.cleanupStarted ==>
          s'.life.cleaning == s.life.cleaning && s'.life.requested == s.life.requested)
  }

  /** A close request that passed the gate closes its connection, and counts as the client's, if and only
      if the connection is there; otherwise it only drops the ID entry. */
  lemma ConnectionIsClosedIff(s: Handler, p: Permit)
    requires Inv(s) && p in s.permits
    ensures var s' := Step(s, CloseRequest(p));
      && s'.requests == s.requests + (if Reaches(s, p) then [Sent(p.c, p.id.user)] else [])
      && s'.written == s.written && s'.overflows == s.overflows && s'.notices == s.notices
      && s'.permits == s.permits - {p}
      && (if Reaches(s, p) then ClosedBy(s, s', p.id.user, false) && s'.index == s.index
          else s'.life == s.life && p.id !in s'.index.connectionIdToUser)
  {
    PermittedIsOpen(s, p);
    assert s.requests + [] == s.requests;
  }

  /** Whether data fits is the answer of the connection's byte counter: `q` is its state, and the data is
      written exactly when it fits into 4 MiB beside everything still counted. */
  lemma DataIsWrittenWithinLimit(s: Handler, p: Permit, q: PendingBytes.Pending, bytes: nat)
    requires Inv(s) && p in s.permits && Reaches(s, p) && PendingBytes.Bounded(q)
    ensures var s' := Step(s, SendData(p, PendingBytes.AddBytes(q, bytes).1));
      var room := PendingBytes.InFlight(q.sends) + PendingBytes.NotRolledBack(q.sends) + bytes
        <= PendingBytes.MAX_PENDING_BYTES;
      && (s'.written == s.written + [Sent(p.c, p.id.user)] <==> room)
      && (p.id.user in s'.life.closed <==> !room)
  {
    PendingBytes.AcceptedIff(q, bytes);
    DataIsWrittenIff(s, p, PendingBytes.AddBytes(q, bytes).1);
    assert |s.written + [Sent(p.c, p.id.user)]| != |s.written|;
  }

  // From arrival to the socket --------------------------------------------------------------------------

  /** Only the last read of the gate lets a message through, and a message it does not stop goes on. */
  lemma PassAdmitsIff(s: Handler, g: Gate)
    requires g in s.gates
    ensures var s' := Step(s, Pass(g));
      && s'.permits == s.permits + (if GateRead(s, g).Through? then {Permit(g.c, g.id)} else {})
      && s'.gates == s.gates - {g} + (if GateRead(s, g).ReadOn? then {g.(at := GateRead(s, g).at)} else {})
      && s' == s.(gates := s'.gates, permits := s'.permits)
  {
  }

  lemma SameReads(s: Handler, t: Handler, g: Gate)
    requires t == s.(gates := t.gates, permits := t.permits)
    ensures GateRead(t, g) == GateRead(s, g)
  {
  }

  /** The steps of a data message from channel `c` for `u`, opened for session `ref`. */
  function Message(c: Channel, u: User, ref: SessionRef, fits: bool): seq<Label> {
    var id := LongText(u);
    [Arrive(c, u), Pass(Gate(c, id, FindUser)), Pass(Gate(c, id, FindOwner(u))), Pass(Gate(c, id, CheckSession(ref))),
     Pass(Gate(c, id, CheckCurrent(ref))), SendData(Permit(c, id), fits)]
  }

  lemma RunTwo(s: Handler, labels: seq<Label>)
    requires |labels| >= 2
    ensures Run(s, labels) == Run(Step(Step(s, labels[0]), labels[1]), labels[2..])
  {
    hide Step;
    assert labels[1..][1..] == labels[2..];
  }

  lemma GateReadsOn(s: Handler, t: Handler, g: Gate, at: GatePoint)
    requires t == s.(gates := t.gates, permits := t.permits) && g in t.gates && GateRead(s, g) == ReadOn(at)
    ensures var t' := Step(t, Pass(g));
      t' == s.(gates := t'.gates, permits := t'.permits) && g.(at := at) in t'.gates
  {
    SameReads(s, t, g);
  }

  lemma GateLetsThrough(s: Handler, t: Handler, g: Gate)
    requires t == s.(gates := t.gates, permits := t.permits) && g in t.gates && GateRead(s, g).Through?
    ensures var t' := Step(t, Pass(g));
      t' == s.(gates := t'.gates, permits := t'.permits) && Permit(g.c, g.id) in t'.permits
  {
    SameReads(s, t, g);
  }

  /** With nothing in between, a message of the owning channel for an open connection gets through the
      gate and is written if it fits. */
  lemma OwnersDataIsWritten(s: Handler, c: Channel, u: User, fits: bool)
    requires Inv(s) && u in s.owner && u in s.life.announced && u !in s.life.closed && Owns(s, c, LongText(u))
    ensures Run(s, Message(c, u, s.owner[u], fits)).written == s.written + if fits then [Sent(c, u)] else []
  {
    OwnersReads(s, c, u);
    hide Step; hide Inv; hide Owns; hide GateRead;
    var (id, ref, labels) := (LongText(u), s.owner[u], Message(c, u, s.owner[u], fits));
    var t1 := Step(s, labels[0]);
    Arrives(s, c, u);
    var t2 := Step(t1, labels[1]);
    GateReadsOn(s, t1, Gate(c, id, FindUser), FindOwner(u));
    RunTwo(s, labels);
    var t3 := Step(t2, labels[2]);
    GateReadsOn(s, t2, Gate(c, id, FindOwner(u)), CheckSession(ref));
    var t4 := Step(t3, labels[3]);
    GateReadsOn(s, t3, Gate(c, id, CheckSession(ref)), CheckCurrent(ref));
    RunTwo(t2, labels[2..]);
    var t5 := Step(t4, labels[4]);
    GateLetsThrough(s, t4, Gate(c, id, CheckCurrent(ref)));
    RunTwo(t4, labels[4..]);
    PermittedDataIsWritten(s, t5, Permit(c, id), fits);
  }

  lemma OwnersReads(s: Handler, c: Channel, u: User)
    requires Inv(s) && u in s.owner && u in s.life.announced && u !in s.life.closed && Owns(s, c, LongText(u))
    ensures var (id, ref) := (LongText(u), s.owner[u]);
      && id in s.index.connectionIdToUser && s.index.connectionIdToUser[id] == u
      && GateRead(s, Gate(c, id, FindUser)) == ReadOn(FindOwner(u))
      && GateRead(s, Gate(c, id, FindOwner(u))) == ReadOn(CheckSession(ref))
      && GateRead(s, Gate(c, id, CheckSession(ref))) == ReadOn(CheckCurrent(ref))
      && GateRead(s, Gate(c, id, CheckCurrent(ref))).Through?
  {
    hide SessionActive; hide SessionByChannel;
    assert GoodView(u, Of(s, u));
  }

  lemma Arrives(s: Handler, c: Channel, u: User)
    requires u in s.life.announced
    ensures var t := Step(s, Arrive(c, u));
      t == s.(gates := t.gates, permits := t.permits) && Gate(c, LongText(u), FindUser) in t.gates
  {
  }

  lemma PermittedDataIsWritten(s: Handler, t: Handler, p: Permit, fits: bool)
    requires t == s.(gates := t.gates, permits := t.permits) && p in t.permits && p.id in s.index.connectionIdToUser
    requires s.index.connectionIdToUser[p.id] == p.id.user && p.id.user !in s.life.closed
    ensures Step(t, SendData(p, fits)).written == s.written + if fits then [Sent(p.c, p.id.user)] else []
  {
  }

  // Opening ------------------------------------------------------------------------------------------------

  /** The session the opening looked up is still its device's current one, and active. */
  predicate StillCurrent(s: Handler, d: Device, ref: SessionRef) {
    SessionActive(s, ref) && d in s.sessions.sessionMap && s.sessions.sessionMap[d] == ref
  }

  /** A new connection is opened exactly when its device has a session that is online on a live channel;
      otherwise it is closed. */
  lemma OpensIff(s: Handler, u: User, d: Device)
    requires u !in s.owner && u !in s.life.opening && u !in s.life.closed
    ensures var s' := Step(s, Open(u, d));
      var active := HasSession(s.sessions, d) && Current(s.sessions, d).status.ONLINE?
        && Current(s.sessions, d).channel !in s.dead;
      && (u in s'.life.opening <==> active) && (u in s'.life.closed <==> !active)
      && (active ==> s'.life.opening[u] == PutSession(d, s.sessions.sessionMap[d]))
  {
  }

  /** The port's listener admits it into the port's table, or it is closed. */
  lemma ListedIff(s: Handler, u: User, admitted: bool)
    requires Inv(s) && u in s.life.opening && s.life.opening[u].Admit?
    ensures var s' := Step(s, Proceed(u, admitted));
      (u in s'.index.listed <==> admitted) && s'.life.closed == s.life.closed + if admitted then {} else {u}
  {
    assert GoodView(u, Of(s, u));
  }

  /** A connection is announced exactly when the session it was opened for is still current and active
      at the last step of its opening; otherwise it is closed and cleaned up, and the client told. */
  lemma AnnouncedIff(s: Handler, u: User, admitted: bool)
    requires Inv(s) && u in s.life.opening && s.life.opening[u].Recheck?
    ensures var s' := Step(s, Proceed(u, admitted));
      var current := StillCurrent(s, s.life.opening[u].d, s.life.opening[u].ref);
      && u !in s'.life.opening && (u in s'.life.announced <==> current)
      && (if current then s'.life.closed == s.life.closed && s'.life.cleanupStarted == s.life.cleanupStarted
          else ClosedBy(s, s', u, true) && u in s'.life.cleaning)
  {
    assert GoodView(u, Of(s, u));
  }

  function OpenRank(s: Handler, u: User): nat {
    if u !in s.life.opening then 0
    else match s.life.opening[u]
         case PutSession(_, _) => 5
         case PutUser(_, _) => 4
         case PutId(_, _) => 3
         case Admit(_, _) => 2
         case Recheck(_, _) => 1
  }

  function CleanRank(s: Handler, u: User): nat {
    if u !in s.life.cleaning then 0
    else match s.life.cleaning[u]
         case TakeSession(_) => 5
         case TakeId(_, _) => 4
         case TakeUser(_, _, _) => 3
         case Unlist(_, _, _) => 2
         case Notify(_, _, _) => 1
  }

  lemma ProceedAdvances(s: Handler, v: User, admitted: bool, u: User)
    requires (u in s.owner || u in s.life.opening) && v in s.life.opening && GoodView(u, Of(s, u))
    ensures var s' := OpenStep(s, v, s.life.opening[v], admitted);
      && (u in s'.owner || u in s'.life.opening)
      && (if u == v then OpenRank(s', u) < OpenRank(s, u) else OpenRank(s', u) == OpenRank(s, u))
  {
    hide SessionActive;
  }

  lemma OthersLeaveOpening(s: Handler, l: Label, u: User)
    requires (u in s.owner || u in s.life.opening) && !l.Proceed?
    ensures var s' := Step(s, l); (u in s'.owner || u in s'.life.opening) && OpenRank(s', u) == OpenRank(s, u)
  {
    hide SessionActive; hide SessionByChannel; hide GateRead; hide Stranger; hide ChannelAlive; hide Evolves;
    hide Target;
  }

  /** How many steps of the opening of `u` the run has. */
  function Proceedings(labels: seq<Label>, u: User): nat {
    if labels == [] then 0
    else (if labels[0].Proceed? && labels[0].u == u then 1 else 0) + Proceedings(labels[1..], u)
  }

  /** An opening that has begun is over after its five steps, whatever comes between them. */
  lemma {:induction false} OpeningEnds(s: Handler, labels: seq<Label>, u: User)
    requires Inv(s) && (u in s.owner || u in s.life.opening) && Proceedings(labels, u) >= OpenRank(s, u)
    ensures u !in Run(s, labels).life.opening
    decreases |labels|
  {
    if labels == [] {
    } else {
      var l := labels[0];
      StepKeepsInv(s, l);
      assert GoodView(u, Of(s, u));
      if !l.Proceed? {
        OthersLeaveOpening(s, l, u);
      } else if l.u in s.life.opening {
        ProceedAdvances(s, l.u, l.admitted, u);
      }
      hide OpenStep; hide CleanStep; hide GateStep; hide OpenRank; hide Inv;
      OpeningEnds(Step(s, l), labels[1..], u);
    }
  }

  // Cleaning up ------------------------------------------------------------------------------------------

  lemma CleanAdvances(s: Handler, v: User, u: User)
    requires u in s.life.cleanupStarted && v in s.life.cleaning
    ensures var s' := CleanStep(s, v, s.life.cleaning[v]);
      && u in s'.life.cleanupStarted
      && (if u == v then CleanRank(s', u) < CleanRank(s, u) else CleanRank(s', u) == CleanRank(s, u))
  {
    hide ChannelAlive;
  }

  lemma ProceedLeavesCleanup(s: Handler, v: User, admitted: bool, u: User)
    requires u in s.life.cleanupStarted && v in s.life.opening
    ensures var s' := OpenStep(s, v, s.life.opening[v], admitted);
      u in s'.life.cleanupStarted && CleanRank(s', u) == CleanRank(s, u)
  {
    hide SessionActive;
  }

  lemma OthersLeaveCleanup(s: Handler, l: Label, u: User)
    requires u in s.life.cleanupStarted && !l.Clean? && !l.Proceed?
    ensures var s' := Step(s, l); u in s'.life.cleanupStarted && CleanRank(s', u) == CleanRank(s, u)
  {
    hide SessionActive; hide SessionByChannel; hide GateRead; hide Stranger; hide ChannelAlive; hide Evolves;
    hide Target;
  }

  /** Each step of a cleanup takes it further, and no other step touches it. */
  lemma CleanupAdvances(s: Handler, l: Label, u: User)
    requires u in s.life.cleanupStarted
    ensures var s' := Step(s, l);
      && u in s'.life.cleanupStarted && CleanRank(s', u) <= CleanRank(s, u)
      && (l == Clean(u) && u in s.life.cleaning ==> CleanRank(s', u) < CleanRank(s, u))
  {
    hide OpenStep; hide CleanStep; hide GateStep; hide CleanRank;
    if l.Clean? {
      if l.u in s.life.cleaning { CleanAdvances(s, l.u, u); }
    } else if l.Proceed? {
      if l.u in s.life.opening { ProceedLeavesCleanup(s, l.u, l.admitted, u); }
    } else {
      OthersLeaveCleanup(s, l, u);
    }
  }

  /** How many steps of the cleanup of `u` the run has. */
  function Cleanings(labels: seq<Label>, u: User): nat {
    if labels == [] then 0 else (if labels[0] == Clean(u) then 1 else 0) + Cleanings(labels[1..], u)
  }

  lemma {:induction false} CleanupEnds(s: Handler, labels: seq<Label>, u: User)
    requires Inv(s) && u in s.life.cleanupStarted && Cleanings(labels, u) >= CleanRank(s, u)
    ensures var t := Run(s, labels); Inv(t) && u in t.life.cleanupStarted && u !in t.life.cleaning
    decreases |labels|
  {
    if labels == [] {
    } else {
      hide Step; hide Inv;
      StepKeepsInv(s, labels[0]);
      CleanupAdvances(s, labels[0], u);
      CleanupEnds(Step(s, labels[0]), labels[1..], u);
    }
  }

  /** A connection that is closed, or whose socket reports its end, is forgotten by all three maps and its
      port's table once its cleanup has taken its five steps, whatever comes between them. */
  lemma ClosedIsForgotten(s: Handler, labels: seq<Label>, u: User)
    requires Inv(s) && u !in s.life.opening && (u in s.life.announced || u in s.life.closed)
    requires Cleanings(labels, u) >= 5
    ensures Of(Run(Step(s, BeginCleanup(u)), labels), u).Gone()
  {
    var s' := Step(s, BeginCleanup(u));
    StepKeepsInv(s, BeginCleanup(u));
    assert u in s'.life.cleanupStarted;
    CleanupEnds(s', labels, u);
    assert GoodView(u, Of(Run(s', labels), u));
  }

  /** Closing a port closes exactly its connections and takes them off its table; a user who leaves closes
      its own. */
  lemma ClosingCloses(s: Handler, users: set<User>, u: User)
    requires users <= s.index.listed
    ensures var s' := Step(s, ClosePort(users));
      s'.life.closed == s.life.closed + users && s'.index.listed == s.index.listed - users
    ensures Step(s, UserCloses(u)).life.closed == s.life.closed + {u}
  {
  }
}
