/** Ownership, index consistency and exactly-once cleanup of external connections, for every
    interleaving. */
module ExternalOwnership {
  import opened Wrappers
  import opened Reservations
  import opened Sessions
  import opened ExternalConnections

  function Lookup<K, V>(m: map<K, V>, k: K): Option<V> { if k in m then Some(m[k]) else None }

  /** All that the handler knows about one connection. */
  datatype View = View(
    session: Option<SessionRef>,
    user: Option<User>,
    id: Option<ConnectionId>,
    opening: Option<OpenPoint>,
    cleaning: Option<CleanPoint>,
    owner: Option<SessionRef>,
    started: bool,
    closed: bool,
    announced: bool,
    requested: bool,
    listed: bool)
  {
    /** Mentioned by none of the three maps. */
    predicate Forgotten() { session.None? && user.None? && id.None? }

    /** Nor by the connection table of its port. */
    predicate Gone() { Forgotten() && !listed }

    /** Mentioned by all three; a closed connection may already have lost its ID entry. */
    predicate Indexed(u: User) {
      owner.Some? && session == owner && id == Some(LongText(u)) && (user == Some(u) || (user.None? && closed))
    }
  }

  function ViewOf(x: Index, life: Life, owner: map<User, SessionRef>, u: User): View {
    View(Lookup(x.userToSession, u), Lookup(x.connectionIdToUser, LongText(u)), Lookup(x.userToConnectionId, u),
         Lookup(life.opening, u), Lookup(life.cleaning, u), Lookup(owner, u),
         u in life.cleanupStarted, u in life.closed, u in life.announced, u in life.requested, u in x.listed)
  }

  function Of(s: Handler, u: User): View { ViewOf(s.index, s.life, s.owner, u) }

  predicate GoodOpening(u: User, w: View, at: OpenPoint) {
    && !w.announced && !w.started && w.cleaning.None?
    && (match at
        case PutSession(_, _) => w.owner.None? && w.Gone()
        case PutUser(_, ref) => w.owner == w.session == Some(ref) && w.user.None? && w.id.None? && !w.listed
        case PutId(_, ref) => w.owner == w.session == Some(ref) && w.user == Some(u) && w.id.None? && !w.listed
        case Admit(_, ref) =>
          w.owner == w.session == Some(ref) && w.user == Some(u) && w.id == Some(LongText(u)) && !w.listed
        case Recheck(_, ref) => w.owner == w.session == Some(ref) && w.user == Some(u) && w.id == Some(LongText(u)))
  }

  /** What a cleanup has taken is the connection's own session and ID. */
  predicate GoodCleaning(u: User, w: View, at: CleanPoint) {
    && w.started && (at.notify <==> !w.requested)
    && (w.user.Some? ==> w.user == Some(u))
    && (match at
        case TakeSession(_) => if w.owner.Some? then w.Indexed(u) else w.Gone()
        case TakeId(_, session) =>
          w.session.None? && session == w.owner && (if w.owner.Some? then w.id == Some(LongText(u)) else w.Gone())
        case TakeUser(_, session, id) =>
          && w.session.None? && w.id.None? && session == w.owner
          && (if w.owner.Some? then id == Some(LongText(u)) else id.None? && w.user.None?)
        case Unlist(_, session, id) =>
          w.Forgotten() && session == w.owner && id == if w.owner.Some? then Some(LongText(u)) else None
        case Notify(_, session, id) =>
          w.Gone() && session == w.owner && id == if w.owner.Some? then Some(LongText(u)) else None)
  }

  predicate GoodView(u: User, w: View) {
    && (w.requested ==> w.started)
    && (w.announced ==> w.owner.Some?)
    && (w.started && w.owner.None? ==> w.closed)
    && (if w.opening.Some? then GoodOpening(u, w, w.opening.value)
        else if w.cleaning.Some? then GoodCleaning(u, w, w.cleaning.value)
        else if w.started then w.Gone()
        else if w.announced then w.Indexed(u)
        else w.owner.None? && w.Gone())
  }

  ghost predicate GoodUsers(s: Handler) { forall u :: GoodView(u, Of(s, u)) }

  /** `u` was opened for the session of channel `c`. */
  ghost predicate BelongsTo(s: Handler, u: User, c: Channel) {
    u in s.owner && s.owner[u] in s.sessions.objects && s.sessions.objects[s.owner[u]].channel == c
  }

  ghost predicate PermitsOwned(s: Handler) {
    forall p | p in s.permits :: p.id.user in s.life.announced && BelongsTo(s, p.id.user, p.c)
  }

  /** What the gate has read so far is the connection's own. */
  ghost predicate GateOwned(s: Handler, g: Gate) {
    && (g.id.user in s.life.announced || Stranger(s, g.c, g.id.user))
    && (match g.at
        case FindUser => true
        case FindOwner(user) => user == g.id.user
        case CheckSession(ref) => g.id.user in s.owner && s.owner[g.id.user] == ref
        case CheckCurrent(ref) =>
          g.id.user in s.life.announced && BelongsTo(s, g.id.user, g.c) && s.owner[g.id.user] == ref)
  }

  ghost predicate GatesOwned(s: Handler) { forall g | g in s.gates :: GateOwned(s, g) }

  /** Every close request was the owner's, and only requests count a connection as requested. */
  ghost predicate RequestsOwned(s: Handler) {
    && (forall i | 0 <= i < |s.requests| :: BelongsTo(s, s.requests[i].user, s.requests[i].c))
    && (forall u | u in s.life.requested :: exists i :: 0 <= i < |s.requests| && s.requests[i].user == u)
  }

  ghost predicate WritesOwned(s: Handler) {
    forall i | 0 <= i < |s.written| :: BelongsTo(s, s.written[i].user, s.written[i].c)
  }

  /** The one cleanup of `u` is over, and it was not the client's. */
  predicate Settled(life: Life, u: User) {
    u in life.cleanupStarted && u !in life.cleaning && u !in life.requested && u !in life.opening
  }

  ghost predicate OverflowsOwned(s: Handler) {
    forall i | 0 <= i < |s.overflows| :: BelongsTo(s, s.overflows[i].user, s.overflows[i].c)
  }

  ghost predicate NoticesOwned(s: Handler) {
    forall i | 0 <= i < |s.notices| ::
      BelongsTo(s, s.notices[i].user, s.notices[i].c) && Settled(s.life, s.notices[i].user)
  }

  ghost predicate NoticesOnce(s: Handler) {
    forall i, j | 0 <= i < j < |s.notices| :: s.notices[i].user != s.notices[j].user
  }

  ghost predicate OwnersKnown(s: Handler) {
    && (forall u | u in s.owner :: s.owner[u] in s.sessions.objects)
    && (forall u | u in s.life.opening :: s.life.opening[u].ref in s.sessions.objects)
  }

  ghost predicate Inv(s: Handler) {
    && GoodUsers(s) && OwnersKnown(s) && GatesOwned(s) && PermitsOwned(s)
    && WritesOwned(s) && RequestsOwned(s) && OverflowsOwned(s) && NoticesOwned(s) && NoticesOnce(s)
  }

  // Views: a step moves its own connection from one good view to the next, and no other ----------

  lemma OpenOwn(s: Handler, u: User, admitted: bool)
    requires u in s.life.opening && GoodView(u, Of(s, u))
    ensures GoodView(u, Of(OpenStep(s, u, s.life.opening[u], admitted), u))
  {
    hide SessionActive;
  }

  lemma PutOther(s: Handler, u: User, admitted: bool, v: User)
    requires u in s.life.opening && u != v && !s.life.opening[u].Admit? && !s.life.opening[u].Recheck?
    ensures Of(OpenStep(s, u, s.life.opening[u], admitted), v) == Of(s, v)
  {
  }

  lemma AdmitOther(s: Handler, u: User, admitted: bool, v: User)
    requires u in s.life.opening && u != v && (s.life.opening[u].Admit? || s.life.opening[u].Recheck?)
    ensures Of(OpenStep(s, u, s.life.opening[u], admitted), v) == Of(s, v)
  {
  }

  lemma OpenOther(s: Handler, u: User, admitted: bool, v: User)
    requires u in s.life.opening && u != v
    ensures Of(OpenStep(s, u, s.life.opening[u], admitted), v) == Of(s, v)
  {
    if s.life.opening[u].Admit? || s.life.opening[u].Recheck? {
      AdmitOther(s, u, admitted, v);
    } else {
      PutOther(s, u, admitted, v);
    }
  }

  lemma CleanOwn(s: Handler, u: User)
    requires u in s.life.cleaning && GoodView(u, Of(s, u))
    ensures GoodView(u, Of(CleanStep(s, u, s.life.cleaning[u]), u))
  {
    hide ChannelAlive;
  }

  lemma CleanOther(s: Handler, u: User, v: User)
    requires u in s.life.cleaning && GoodView(u, Of(s, u)) && u != v
    ensures Of(CleanStep(s, u, s.life.cleaning[u]), v) == Of(s, v)
  {
    hide ChannelAlive;
  }

  /** Starting a cleanup, alone or of a connection that is being closed. */
  lemma StartViews(x: Index, life: Life, owner: map<User, SessionRef>, u: User, notify: bool, v: User)
    requires u !in life.opening && (u in life.announced || u in life.closed) && GoodView(v, ViewOf(x, life, owner, v))
    ensures GoodView(v, ViewOf(x, life.StartCleanup(u, notify), owner, v))
  {
  }

  lemma CloseViews(x: Index, life: Life, owner: map<User, SessionRef>, u: User, v: User)
    requires GoodView(v, ViewOf(x, life, owner, v))
    ensures GoodView(v, ViewOf(x, life.Close(u), owner, v))
  {
  }

  lemma StartUsers(s: Handler, life: Life, u: User, notify: bool)
    requires GoodUsers(s.(life := life)) && u !in life.opening && (u in life.announced || u in life.closed)
    ensures GoodUsers(s.(life := life.StartCleanup(u, notify)))
  {
    forall v
      ensures GoodView(v, Of(s.(life := life.StartCleanup(u, notify)), v))
    {
      assert GoodView(v, Of(s.(life := life), v));
      StartViews(s.index, life, s.owner, u, notify, v);
    }
  }

  lemma CloseUsers(s: Handler, u: User)
    requires GoodUsers(s)
    ensures GoodUsers(s.(life := s.life.Close(u)))
  {
    forall v
      ensures GoodView(v, Of(s.(life := s.life.Close(u)), v))
    {
      assert GoodView(v, Of(s, v));
      CloseViews(s.index, s.life, s.owner, u, v);
    }
  }

  /** A permitted message finds its own connection or nothing, and the connection is past its
      opening. */
  lemma PermittedIsOpen(s: Handler, p: Permit)
    requires GoodUsers(s) && PermitsOwned(s) && p in s.permits
    ensures p.id.user !in s.life.opening
    ensures Target(s, p).Some? ==> Target(s, p) == Some(p.id.user)
    ensures Target(s, p).None? && p.id in s.index.connectionIdToUser ==> p.id.user in s.life.closed
  {
    assert GoodView(p.id.user, Of(s, p.id.user));
    assert LongText(p.id.user) == p.id;
  }

  /** A close request for a connection that is already closed only drops its ID entry. */
  lemma DropIdUsers(s: Handler, id: ConnectionId)
    requires GoodUsers(s) && id.user !in s.life.opening
    requires id in s.index.connectionIdToUser ==> id.user in s.life.closed
    ensures GoodUsers(s.(index := s.index.(connectionIdToUser := s.index.connectionIdToUser - {id})))
  {
    var s' := s.(index := s.index.(connectionIdToUser := s.index.connectionIdToUser - {id}));
    forall v
      ensures GoodView(v, Of(s', v))
    {
      assert GoodView(v, Of(s, v));
      assert Of(s', v) == if v == id.user then Of(s, v).(user := None) else Of(s, v);
    }
  }

  lemma BeginOpenUsers(s: Handler, u: User, at: OpenPoint)
    requires GoodUsers(s) && u !in s.owner && u !in s.life.opening && u !in s.life.closed && at.PutSession?
    ensures GoodUsers(s.(life := OpenAt(s.life, u, at)))
  {
    var s' := s.(life := OpenAt(s.life, u, at));
    forall v
      ensures GoodView(v, Of(s', v))
    {
      assert GoodView(v, Of(s, v));
      assert Of(s', v) == if v == u then Of(s, v).(opening := Some(at)) else Of(s, v);
    }
  }

  lemma ProceedUsers(s: Handler, u: User, admitted: bool)
    requires GoodUsers(s) && u in s.life.opening
    ensures GoodUsers(OpenStep(s, u, s.life.opening[u], admitted))
  {
    forall v
      ensures GoodView(v, Of(OpenStep(s, u, s.life.opening[u], admitted), v))
    {
      assert GoodView(v, Of(s, v));
      if v == u { OpenOwn(s, u, admitted); } else { OpenOther(s, u, admitted, v); }
    }
  }

  lemma CleanUsers(s: Handler, u: User)
    requires GoodUsers(s) && u in s.life.cleaning
    ensures GoodUsers(CleanStep(s, u, s.life.cleaning[u]))
  {
    assert GoodView(u, Of(s, u));
    forall v
      ensures GoodView(v, Of(CleanStep(s, u, s.life.cleaning[u]), v))
    {
      assert GoodView(v, Of(s, v));
      if v == u { CleanOwn(s, u); } else { CleanOther(s, u, v); }
    }
  }

  /** Fields outside index, life and owner do not matter to views. */
  lemma SameUsers(s: Handler, s': Handler)
    requires GoodUsers(s) && s'.index == s.index && s'.life == s.life && s'.owner == s.owner
    ensures GoodUsers(s')
  {
    forall v
      ensures GoodView(v, Of(s', v))
    {
      assert GoodView(v, Of(s, v));
    }
  }

  lemma MessageUsers(s: Handler, l: Label)
    requires GoodUsers(s) && PermitsOwned(s) && (l.SendData? || l.CloseRequest?)
    ensures GoodUsers(Step(s, l))
  {
    var p := l.p;
    if p in s.permits {
      PermittedIsOpen(s, p);
      var s' := Spend(s, p);
      SameUsers(s, s');
      if Target(s, p).Some? {
        CloseUsers(s', p.id.user);
        StartUsers(s', s'.life.Close(p.id.user), p.id.user, l.SendData?);
        if l.CloseRequest? {
          var t := s'.(life := s'.life.Close(p.id.user).StartCleanup(p.id.user, false));
          SameUsers(t, t.(requests := s.requests + [Sent(p.c, p.id.user)]));
        }
        if l.SendData? {
          SameUsers(s', s'.(written := s.written + [Sent(p.c, p.id.user)]));
          var t := s'.(life := s'.life.Close(p.id.user).StartCleanup(p.id.user, true));
          SameUsers(t, t.(overflows := s.overflows + [Sent(p.c, p.id.user)]));
        }
      } else if l.CloseRequest? {
        DropIdUsers(s', p.id);
      }
    }
  }

  /** Closing a port takes its connections off the port's table and closes them. */
  lemma ClosePortUsers(s: Handler, users: set<User>)
    requires GoodUsers(s) && users <= s.index.listed
    ensures GoodUsers(Step(s, ClosePort(users)))
  {
    var s' := Step(s, ClosePort(users));
    forall v
      ensures GoodView(v, Of(s', v))
    {
      assert GoodView(v, Of(s, v));
      assert Of(s', v) == if v in users then Of(s, v).(listed := false, closed := true) else Of(s, v);
    }
  }

  lemma StepKeepsUsers(s: Handler, l: Label)
    requires GoodUsers(s) && PermitsOwned(s)
    ensures GoodUsers(Step(s, l))
  {
    match l
    case Lifecycle(sessions, dead) => SameUsers(s, Step(s, l));
    case ClosePort(users) => if users <= s.index.listed { ClosePortUsers(s, users); } else { SameUsers(s, Step(s, l)); }
    case Open(u, d) =>
      CloseUsers(s, u);
      if u !in s.owner && u !in s.life.opening && u !in s.life.closed && HasSession(s.sessions, d) {
        BeginOpenUsers(s, u, PutSession(d, s.sessions.sessionMap[d]));
      }
    case Proceed(u, admitted) => if u in s.life.opening { ProceedUsers(s, u, admitted); }
    case UserCloses(u) => CloseUsers(s, u);
    case BeginCleanup(u) =>
      if u !in s.life.opening && (u in s.life.announced || u in s.life.closed) { StartUsers(s, s.life, u, true); }
    case Clean(u) => if u in s.life.cleaning { CleanUsers(s, u); }
    case Arrive(c, u) => SameUsers(s, Step(s, l));
    case Pass(g) => SameUsers(s, Step(s, l));
    case SendData(p, fits) => MessageUsers(s, l);
    case CloseRequest(p) => MessageUsers(s, l);
  }

  // History ----------------------------------------------------------------------------------------

  /** Who owns what is never forgotten, a connection being opened goes on for the same session, and
      announced connections stay so. */
  ghost predicate Remembers(s: Handler, s': Handler) {
    && (forall u | u in s.owner :: u in s'.owner && s'.owner[u] == s.owner[u])
    && (forall r | r in s.sessions.objects ::
          r in s'.sessions.objects && s'.sessions.objects[r].channel == s.sessions.objects[r].channel)
    && (forall u | u in s.life.announced :: u in s'.life.announced)
    && (forall u | u in s.life.opening ::
          || (u in s'.life.opening && s'.life.opening[u].ref == s.life.opening[u].ref)
          || (u in s'.owner && s'.owner[u] == s.life.opening[u].ref))
  }

  lemma ProceedRemembers(s: Handler, u: User, admitted: bool)
    requires GoodUsers(s) && OwnersKnown(s) && u in s.life.opening
    ensures var s' := OpenStep(s, u, s.life.opening[u], admitted); Remembers(s, s') && OwnersKnown(s')
  {
    assert GoodView(u, Of(s, u));
  }

  lemma CleanRemembers(s: Handler, u: User)
    requires OwnersKnown(s) && u in s.life.cleaning
    ensures var s' := CleanStep(s, u, s.life.cleaning[u]); Remembers(s, s') && OwnersKnown(s')
  {
  }

  lemma StepRemembers(s: Handler, l: Label)
    requires GoodUsers(s) && OwnersKnown(s)
    ensures Remembers(s, Step(s, l)) && OwnersKnown(Step(s, l))
  {
    if l.Proceed? {
      if l.u in s.life.opening { ProceedRemembers(s, l.u, l.admitted); }
    } else if l.Clean? {
      if l.u in s.life.cleaning { CleanRemembers(s, l.u); }
    } else {
      if l.Lifecycle? || l.Open? { SessionsRemember(s, l); } else { OtherRemembers(s, l); }
    }
  }

  lemma SessionsRemember(s: Handler, l: Label)
    requires OwnersKnown(s) && (l.Lifecycle? || l.Open?)
    ensures Remembers(s, Step(s, l)) && OwnersKnown(Step(s, l))
  {
    hide SessionActive; hide OpenStep; hide CleanStep; hide GateStep;
  }

  lemma OtherRemembers(s: Handler, l: Label)
    requires OwnersKnown(s) && !l.Proceed? && !l.Clean? && !l.Lifecycle? && !l.Open?
    ensures Remembers(s, Step(s, l)) && OwnersKnown(Step(s, l))
  {
    hide SessionActive; hide SessionByChannel; hide GateRead; hide Stranger; hide Target;
  }

  /** One read of the gate finds the connection's own user, session and channel, or ends there. */
  lemma PassKeepsGate(s: Handler, g: Gate)
    requires GoodUsers(s) && OwnersKnown(s) && GatesOwned(s) && PermitsOwned(s) && g in s.gates
    ensures GatesOwned(GateStep(s, g)) && PermitsOwned(GateStep(s, g))
  {
    assert GateOwned(s, g);
    assert GoodView(g.id.user, Of(s, g.id.user)) && LongText(g.id.user) == g.id;
  }

  lemma OthersKeepGates(s: Handler, l: Label)
    requires !l.Arrive? && !l.Pass?
    ensures Step(s, l).gates == s.gates && Step(s, l).permits <= s.permits
  {
  }

  lemma RememberedGate(s: Handler, s': Handler, g: Gate)
    requires Remembers(s, s') && OwnersKnown(s) && GateOwned(s, g)
    ensures GateOwned(s', g)
  {
  }

  lemma StepKeepsPermits(s: Handler, l: Label)
    requires GoodUsers(s) && OwnersKnown(s) && GatesOwned(s) && PermitsOwned(s)
    ensures GatesOwned(Step(s, l)) && PermitsOwned(Step(s, l))
  {
    var s' := Step(s, l);
    if l.Pass? {
      if l.g in s.gates { PassKeepsGate(s, l.g); }
    } else if !l.Arrive? {
      StepRemembers(s, l);
      OthersKeepGates(s, l);
      forall g | g in s'.gates
        ensures GateOwned(s', g)
      {
        RememberedGate(s, s', g);
      }
    }
  }

  lemma OthersKeepRequests(s: Handler, l: Label)
    requires !l.CloseRequest?
    ensures Step(s, l).requests == s.requests && Step(s, l).life.requested == s.life.requested
  {
    hide SessionActive; hide GateRead; hide Stranger; hide ChannelAlive; hide Evolves; hide Target;
  }

  lemma StepKeepsOverflows(s: Handler, l: Label)
    requires GoodUsers(s) && OwnersKnown(s) && PermitsOwned(s) && OverflowsOwned(s)
    ensures OverflowsOwned(Step(s, l))
  {
    StepRemembers(s, l);
    if l.SendData? {
      if l.p in s.permits { PermittedIsOpen(s, l.p); }
    } else {
      assert Step(s, l).overflows == s.overflows;
    }
  }

  lemma StepKeepsRequests(s: Handler, l: Label)
    requires GoodUsers(s) && OwnersKnown(s) && PermitsOwned(s) && RequestsOwned(s)
    ensures RequestsOwned(Step(s, l))
  {
    StepRemembers(s, l);
    if l.CloseRequest? {
      var s' := Step(s, l);
      if l.p in s.permits {
        PermittedIsOpen(s, l.p);
        forall u | u in s'.life.requested
          ensures exists i :: 0 <= i < |s'.requests| && s'.requests[i].user == u
        {
          if u in s.life.requested {
            var i :| 0 <= i < |s.requests| && s.requests[i].user == u;
            assert s'.requests[i].user == u;
          } else {
            assert s'.requests[|s.requests|].user == u;
          }
        }
      }
    } else {
      OthersKeepRequests(s, l);
    }
  }

  lemma StepKeepsWrites(s: Handler, l: Label)
    requires GoodUsers(s) && OwnersKnown(s) && PermitsOwned(s) && WritesOwned(s)
    ensures WritesOwned(Step(s, l))
  {
    StepRemembers(s, l);
    if l.SendData? {
      if l.p in s.permits { PermittedIsOpen(s, l.p); }
    } else {
      assert Step(s, l).written == s.written;
    }
  }

  lemma SettledStays(s: Handler, l: Label, u: User)
    requires Settled(s.life, u) && u in s.owner
    ensures Settled(Step(s, l).life, u)
  {
    hide SessionActive; hide SessionByChannel; hide GateRead; hide Stranger; hide ChannelAlive; hide Evolves;
  }

  lemma StepKeepsNotices(s: Handler, l: Label)
    requires GoodUsers(s) && OwnersKnown(s) && PermitsOwned(s) && NoticesOwned(s) && NoticesOnce(s)
    ensures NoticesOwned(Step(s, l)) && NoticesOnce(Step(s, l))
  {
    hide Stranger; hide GateRead; hide SessionActive; hide Target;
    var s' := Step(s, l);
    StepRemembers(s, l);
    forall i | 0 <= i < |s.notices|
      ensures BelongsTo(s', s.notices[i].user, s.notices[i].c) && Settled(s'.life, s.notices[i].user)
    {
      SettledStays(s, l, s.notices[i].user);
    }
    if l.Clean? && l.u in s.life.cleaning {
      assert GoodView(l.u, Of(s, l.u));
    } else {
      assert s'.notices == s.notices;
    }
  }

  lemma StepKeepsInv(s: Handler, l: Label)
    requires Inv(s)
    ensures Inv(Step(s, l))
  {
    StepKeepsUsers(s, l);
    StepRemembers(s, l);
    StepKeepsPermits(s, l);
    StepKeepsWrites(s, l);
    StepKeepsRequests(s, l);
    StepKeepsOverflows(s, l);
    StepKeepsNotices(s, l);
  }

  lemma {:induction false} RunKeepsInv(s: Handler, labels: seq<Label>)
    requires Inv(s)
    ensures Inv(Run(s, labels))
    decreases |labels|
  {
    if labels == [] {
    } else {
      StepKeepsInv(s, labels[0]);
      RunKeepsInv(Step(s, labels[0]), labels[1..]);
    }
  }

  // Results ------------------------------------------------------------------------------------------

  /** A connection nobody is opening or cleaning up. */
  predicate Idle(s: Handler, u: User) { u !in s.life.opening && u !in s.life.cleaning }

  /** After any run: whoever wrote to a connection, had it closed, by request or with data that did
      not fit, or was notified about it is the channel of the session it was opened for; every
      connection counted as closed by its client was closed by such a request; nobody is notified
      twice about one connection, nor about one whose client asked for the close; and an idle
      connection is in all three maps until its cleanup, and afterwards in none of them, nor in the
      connection table of the port it came in by. */
  lemma EveryRunKeepsOwnership(sessions: SessionTables, labels: seq<Label>, u: User)
    ensures var s := Run(Empty(sessions), labels);
            && (forall w | w in s.written || w in s.requests || w in s.overflows || w in s.notices ::
                  BelongsTo(s, w.user, w.c))
            && (forall v | v in s.life.requested :: exists w :: w in s.requests && w.user == v)
            && (forall i, j | 0 <= i < j < |s.notices| :: s.notices[i].user != s.notices[j].user)
            && (forall w | w in s.notices :: w.user !in s.life.requested)
            && (Idle(s, u) && u in s.life.cleanupStarted ==> Of(s, u).Gone())
            && (Idle(s, u) && u in s.life.announced && u !in s.life.cleanupStarted ==> Of(s, u).Indexed(u))
  {
    var s0 := Empty(sessions);
    forall v
      ensures GoodView(v, Of(s0, v))
    {
      assert Of(s0, v) == View(None, None, None, None, None, None, false, false, false, false, false);
    }
    RunKeepsInv(s0, labels);
    assert GoodView(u, Of(Run(s0, labels), u));
    var s := Run(s0, labels);
    forall v | v in s.life.requested
      ensures exists w :: w in s.requests && w.user == v
    {
      var i :| 0 <= i < |s.requests| && s.requests[i].user == v;
      assert s.requests[i] in s.requests;
    }
  }

  /** The gate, read by read.  A message is let through only for a connection of its own channel's
      session, which is that channel's current session at the last read; and it gets to the last
      read only if that session was active at the one before. */
  lemma GateAdmitsOwnerOnly(s: Handler, g: Gate)
    requires Inv(s) && g in s.gates
    ensures GateRead(s, g).Through? ==>
              BelongsTo(s, g.id.user, g.c) && SessionByChannel(s.sessions, g.c) == Some(s.owner[g.id.user])
    ensures g.at.CheckSession? ==>
              (GateRead(s, g).ReadOn? <==> SessionActive(s, s.owner[g.id.user]) && BelongsTo(s, g.id.user, g.c))
  {
    assert GateOwned(s, g);
  }

  /** The reads of one message with nothing in between. */
  predicate ReadsThrough(s: Handler, g: Gate)
    decreases match g.at case FindUser => 3 case FindOwner(_) => 2 case CheckSession(_) => 1 case CheckCurrent(_) => 0
  {
    var verdict := GateRead(s, g);
    verdict.Through? || (verdict.ReadOn? && ReadsThrough(s, g.(at := verdict.at)))
  }

  /** Then they ask exactly what `Owns` says. */
  lemma GateAloneIff(s: Handler, c: Channel, id: ConnectionId)
    ensures ReadsThrough(s, Gate(c, id, FindUser)) <==> Owns(s, c, id)
  {
    if id in s.index.connectionIdToUser && s.index.connectionIdToUser[id] in s.index.userToSession {
      var user := s.index.connectionIdToUser[id];
      var ref := s.index.userToSession[user];
      assert ReadsThrough(s, Gate(c, id, CheckCurrent(ref))) <==> SessionByChannel(s.sessions, c) == Some(ref);
      assert ReadsThrough(s, Gate(c, id, FindOwner(user))) <==> ReadsThrough(s, Gate(c, id, CheckSession(ref)));
    }
  }

  /** The last step of a cleanup notifies exactly when the client did not ask for the close and
      the connection's own session still has a live channel; then it notifies that channel. */
  lemma CleanupNotifiesIff(s: Handler, u: User)
    requires Inv(s) && u in s.life.cleaning && s.life.cleaning[u].Notify? && u in s.owner
    ensures var s' := Step(s, Clean(u));
            var c := s.sessions.objects[s.owner[u]].channel;
            s'.notices == s.notices + if u !in s.life.requested && c !in s.dead then [Sent(c, u)] else []
  {
    assert GoodView(u, Of(s, u));
  }
}
