/** Client sessions: device-to-session and channel-to-device maps, kept mutually inverse.
    Sessions are shared mutable objects (the external-connection handler keeps references to
    replaced ones), so a session is a reference into an explicit object table and identity is
    reference equality. */
module Sessions {
  import opened Wrappers
  import opened Reservations

  type Channel = int
  type SessionRef = int

  datatype Status = ONLINE | OFFLINE

  datatype ClientSession = ClientSession(
    deviceId: Device, channel: Channel, externalPort: Port, status: Status)

  datatype SessionTables = SessionTables(
    objects: map<SessionRef, ClientSession>,
    sessionMap: map<Device, SessionRef>,
    channelToDevice: map<Channel, Device>)

  /** The reference a newly built session gets: one no object has had. */
  ghost predicate Fresh(t: SessionTables, ref: SessionRef) { ref !in t.objects }

  ghost predicate Referenced(t: SessionTables) {
    forall d | d in t.sessionMap :: t.sessionMap[d] in t.objects && t.objects[t.sessionMap[d]].deviceId == d
  }

  /** The two maps are inverse to each other through the session objects. */
  ghost predicate MutuallyInverse(t: SessionTables) {
    && Referenced(t)
    && (forall d | d in t.sessionMap ::
          var c := t.objects[t.sessionMap[d]].channel;
          c in t.channelToDevice && t.channelToDevice[c] == d)
    && (forall c | c in t.channelToDevice ::
          && t.channelToDevice[c] in t.sessionMap
          && t.objects[t.sessionMap[t.channelToDevice[c]]].channel == c)
  }

  predicate HasSession(t: SessionTables, d: Device) {
    d in t.sessionMap && t.sessionMap[d] in t.objects
  }

  function Current(t: SessionTables, d: Device): ClientSession
    requires HasSession(t, d)
  {
    t.objects[t.sessionMap[d]]
  }

  /** Installs a new ONLINE session for `d` on `c`, dropping the replaced session's channel. */
  function RegisterSession(t: SessionTables, ref: SessionRef, d: Device, c: Channel, port: Port): SessionTables {
    var replaced := HasSession(t, d);
    var devices := if replaced then t.channelToDevice - {Current(t, d).channel} else t.channelToDevice;
    var objects := if replaced && Current(t, d).channel != c
                   then t.objects[t.sessionMap[d] := Current(t, d).(status := OFFLINE)] else t.objects;
    SessionTables(objects[ref := ClientSession(d, c, port, ONLINE)], t.sessionMap[d := ref], devices[c := d])
  }

  /** The channel a registration closes: that of a session replaced by another channel. */
  function Superseded(t: SessionTables, d: Device, c: Channel): set<Channel> {
    if HasSession(t, d) && Current(t, d).channel != c then {Current(t, d).channel} else {}
  }

  function SessionByChannel(t: SessionTables, c: Channel): Option<SessionRef> {
    if c !in t.channelToDevice then None
    else
      var d := t.channelToDevice[c];
      if HasSession(t, d) && Current(t, d).channel == c then Some(t.sessionMap[d]) else None
  }

  function RemoveByChannel(t: SessionTables, c: Channel): SessionTables {
    if c !in t.channelToDevice then t
    else
      var d := t.channelToDevice[c];
      var devices := t.channelToDevice - {c};
      if HasSession(t, d) && Current(t, d).channel == c then
        SessionTables(t.objects[t.sessionMap[d] := Current(t, d).(status := OFFLINE)], t.sessionMap - {d}, devices)
      else t.(channelToDevice := devices)
  }

  /** Registration keeps the maps inverse exactly when the channel does not already serve
      another device, which is what `DeviceLifecycleService.register` checks first. */
  lemma RegisterKeepsInverse(t: SessionTables, ref: SessionRef, d: Device, c: Channel, port: Port)
    requires MutuallyInverse(t) && Fresh(t, ref)
    ensures MutuallyInverse(RegisterSession(t, ref, d, c, port))
            <==> (c in t.channelToDevice ==> t.channelToDevice[c] == d)
  {
    var after := RegisterSession(t, ref, d, c, port);
    if c in t.channelToDevice && t.channelToDevice[c] != d {
      var e := t.channelToDevice[c];
      assert e in after.sessionMap && after.objects[after.sessionMap[e]].channel == c;
      assert after.channelToDevice[c] == d;
    }
  }

  /** What a registration leaves: the new session is its device's current one, online, and serves its
      channel; the one it replaces is offline unless it is on the same channel, and its own channel serves
      nobody then; every other session is as it was. */
  lemma RegistrationReplaces(t: SessionTables, ref: SessionRef, d: Device, c: Channel, port: Port)
    requires MutuallyInverse(t) && Fresh(t, ref)
    ensures var after := RegisterSession(t, ref, d, c, port);
      && HasSession(after, d) && after.sessionMap[d] == ref && Current(after, d) == ClientSession(d, c, port, ONLINE)
      && c in after.channelToDevice && after.channelToDevice[c] == d
      && (HasSession(t, d) && Current(t, d).channel != c ==>
            && after.objects[t.sessionMap[d]] == Current(t, d).(status := OFFLINE)
            && Current(t, d).channel !in after.channelToDevice)
      && (forall r | r in t.objects && !(HasSession(t, d) && r == t.sessionMap[d] && Current(t, d).channel != c) ::
            after.objects[r] == t.objects[r])
  {
  }

  lemma RemoveKeepsInverse(t: SessionTables, c: Channel)
    requires MutuallyInverse(t)
    ensures MutuallyInverse(RemoveByChannel(t, c))
  {
  }

  /** With inverse maps, looking a channel up is looking its session up: the answer is the
      current session of the channel's device, and every current session is found this way. */
  lemma ByChannelIsCurrent(t: SessionTables, c: Channel, d: Device, ref: SessionRef)
    requires MutuallyInverse(t) && ref in t.objects && t.objects[ref].deviceId == d && t.objects[ref].channel == c
    ensures SessionByChannel(t, c) == Some(ref) <==> d in t.sessionMap && t.sessionMap[d] == ref
  {
  }

  class SessionStore {
    var objects: map<SessionRef, ClientSession>
    var sessionMap: map<Device, SessionRef>
    var channelToDevice: map<Channel, Device>

    ghost function View(): SessionTables
      reads this
    {
      SessionTables(objects, sessionMap, channelToDevice)
    }

    ghost predicate Valid()
      reads this
    {
      Referenced(View())
    }

    constructor ()
      ensures Valid() && View() == SessionTables(map[], map[], map[])
    {
      objects, sessionMap, channelToDevice := map[], map[], map[];
    }

    /** `closed` is the channel of the replaced session, which the caller's socket layer closes: a
        current session's, if that is on another channel. */
    method Register(ref: SessionRef, d: Device, c: Channel, port: Port) returns (closed: set<Channel>)
      requires Valid() && Fresh(View(), ref)
      modifies this
      ensures Valid()
      ensures View() == RegisterSession(old(View()), ref, d, c, port)
      ensures closed == Superseded(old(View()), d, c)
      ensures forall x :: x in closed <==> d in old(sessionMap) && x == old(objects[sessionMap[d]].channel) && x != c
    {
      closed := {};
      var replaced: Option<SessionRef> := if d in sessionMap then Some(sessionMap[d]) else None;
      if replaced.Some? {
        channelToDevice := channelToDevice - {objects[replaced.value].channel};
      }
      objects := objects[ref := ClientSession(d, c, port, ONLINE)];
      sessionMap := sessionMap[d := ref];
      channelToDevice := channelToDevice[c := d];
      if replaced.Some? && objects[replaced.value].channel != c {
        objects := objects[replaced.value := objects[replaced.value].(status := OFFLINE)];
        closed := {objects[replaced.value].channel};
      }
    }

    method GetSession(d: Device) returns (ref: Option<SessionRef>)
      requires Valid()
      ensures ref == if HasSession(View(), d) then Some(View().sessionMap[d]) else None
    {
      return if d in sessionMap then Some(sessionMap[d]) else None;
    }

    /** The session's own setters; they keep its device and channel. */
    method SetStatus(ref: SessionRef, status: Status)
      requires Valid() && ref in objects
      modifies this`objects
      ensures Valid() && View() == old(View()).(objects := old(objects)[ref := old(objects)[ref].(status := status)])
    {
      objects := objects[ref := objects[ref].(status := status)];
    }

    method SetExternalPort(ref: SessionRef, p: Port)
      requires Valid() && ref in objects
      modifies this`objects
      ensures Valid() && View() == old(View()).(objects := old(objects)[ref := old(objects)[ref].(externalPort := p)])
    {
      objects := objects[ref := objects[ref].(externalPort := p)];
    }

    method GetSessionByChannel(c: Channel) returns (ref: Option<SessionRef>)
      requires Valid()
      ensures ref == SessionByChannel(View(), c)
    {
      if c !in channelToDevice { return None; }
      var d := channelToDevice[c];
      if d in sessionMap && objects[sessionMap[d]].channel == c { return Some(sessionMap[d]); }
      return None;
    }

    method RemoveSessionByChannel(c: Channel)
      requires Valid()
      modifies this
      ensures Valid()
      ensures View() == RemoveByChannel(old(View()), c)
    {
      if c !in channelToDevice { return; }
      var d := channelToDevice[c];
      channelToDevice := channelToDevice - {c};
      if d in sessionMap && objects[sessionMap[d]].channel == c {
        objects := objects[sessionMap[d] := objects[sessionMap[d]].(status := OFFLINE)];
        sessionMap := sessionMap - {d};
      }
    }
  }
}
