/** Fixed-port reservations as a value: what `PortMappingService` promises, one function per
    operation, and the properties of those functions over whole runs.  The class in
    PortMapping.dfy is proved against these functions, and the device lifecycle
    (DeviceLifecycle.dfy) takes them as its atomic steps. */
module Reservations {
  import opened Wrappers

  type Device = string
  type Port = int

  /** A row of the `port_mapping` table, and equally a cache entry. */
  datatype Reservation = Reservation(deviceId: Device, externalPort: Port, targetPort: int, online: bool)

  type Table = map<Device, Reservation>

  /** The published cache, by device, next to the committed database rows. */
  datatype Store = Store(cache: Table, repository: Table)

  /** Configured data port range, both ends included. */
  datatype Range = Range(lo: Port, hi: Port) {
    predicate Contains(p: Port) { lo <= p <= hi }
  }

  /** What an operation tells its caller; the last four are exceptions or error texts. */
  datatype Reply =
    | Done
    | Granted(port: Port)
    | Exhausted          // -1 from allocatePort
    | Absent             // no reservation for the device
    | InvalidArgument
    | AlreadyReserved
    | WriteFailed

  predicate ValidTarget(port: int) { 1 <= port <= 65535 }

  predicate Reserved(t: Table, p: Port) { exists d | d in t :: t[d].externalPort == p }

  ghost predicate Keyed(t: Table) { forall d | d in t :: t[d].deviceId == d }

  ghost predicate UniquePorts(t: Table) {
    forall d, e | d in t && e in t && t[d].externalPort == t[e].externalPort :: d == e
  }

  /** Equal in everything the database must agree on; the online flag is runtime state. */
  predicate SameButOnline(a: Reservation, b: Reservation) {
    a.(online := b.online) == b
  }

  /** The cache refines the database: same devices, same rows up to the online flag. */
  ghost predicate Refines(s: Store) {
    && s.cache.Keys == s.repository.Keys
    && forall d | d in s.cache :: SameButOnline(s.cache[d], s.repository[d])
  }

  ghost predicate WellFormed(s: Store) {
    Keyed(s.cache) && UniquePorts(s.cache) && Refines(s)
  }

  /** The least unreserved port of `[lo, hi]`. */
  function LowestFree(t: Table, lo: Port, hi: Port): (r: Option<Port>)
    ensures r.None? <==> forall p :: lo <= p <= hi ==> Reserved(t, p)
    ensures r.Some? ==> lo <= r.value <= hi && !Reserved(t, r.value)
    ensures r.Some? ==> forall p :: lo <= p < r.value ==> Reserved(t, p)
    decreases hi - lo
  {
    if lo > hi then None
    else if Reserved(t, lo) then LowestFree(t, lo + 1, hi)
    else Some(lo)
  }

  /** Repository first: only a committed row is published; a write that throws changes nothing. */
  function Save(s: Store, r: Reservation, committed: bool): Store {
    if committed then Store(s.cache[r.deviceId := r], s.repository[r.deviceId := r]) else s
  }

  function Allocate(range: Range, s: Store, d: Device, target: int, committed: bool): (Store, Reply) {
    if !ValidTarget(target) then (s, InvalidArgument)
    else if d in s.cache then (s, Granted(s.cache[d].externalPort))
    else match LowestFree(s.cache, range.lo, range.hi)
      case None => (s, Exhausted)
      case Some(p) =>
        (Save(s, Reservation(d, p, target, false), committed), if committed then Granted(p) else WriteFailed)
  }

  function MarkOnline(s: Store, d: Device, target: int, committed: bool): (Store, Reply) {
    if !ValidTarget(target) then (s, InvalidArgument)
    else if d !in s.cache then (s, Absent)
    else
      var row := s.cache[d].(online := true, targetPort := target);
      (Save(s, row, committed), if committed then Done else WriteFailed)
  }

  /** The online flag is dropped from the cache even when the database cannot be written. */
  function MarkOffline(s: Store, d: Device): Store {
    if d !in s.cache then s else s.(cache := s.cache[d := s.cache[d].(online := false)])
  }

  function UpdateExternalPort(range: Range, s: Store, d: Device, p: Port, committed: bool): (Store, Reply) {
    if !range.Contains(p) then (s, InvalidArgument)
    else if d !in s.cache then (s, Absent)
    else
      var current := s.cache[d].externalPort;
      if current == p then (s, Granted(current))
      else if Reserved(s.cache, p) then (s, AlreadyReserved)
      else (Save(s, s.cache[d].(externalPort := p), committed), if committed then Granted(current) else WriteFailed)
  }

  function SetFixedPort(range: Range, s: Store, d: Device, p: Port, target: int, committed: bool): (Store, Reply) {
    if !range.Contains(p) || !ValidTarget(target) then (s, InvalidArgument)
    else if d in s.cache || Reserved(s.cache, p) then (s, AlreadyReserved)
    else (Save(s, Reservation(d, p, target, false), committed), if committed then Done else WriteFailed)
  }

  function Release(s: Store, d: Device, committed: bool): (Store, Reply) {
    if d !in s.cache then (s, Done)
    else if !committed then (s, WriteFailed)
    else (Store(s.cache - {d}, s.repository - {d}), Done)
  }

  /** Start-up: the rows of the database, all offline. */
  function Loaded(repository: Table): Table {
    map d | d in repository :: repository[d].(online := false)
  }

  function Reload(s: Store): Store { s.(cache := Loaded(s.repository)) }

  // Whole runs ---------------------------------------------------------------------------

  datatype Operation =
    | AllocateOp(d: Device, target: int, committed: bool)
    | MarkOnlineOp(d: Device, target: int, committed: bool)
    | MarkOfflineOp(d: Device)
    | UpdateOp(d: Device, port: Port, committed: bool)
    | PresetOp(d: Device, port: Port, target: int, committed: bool)
    | ReleaseOp(d: Device, committed: bool)
    | ReloadOp

  function Apply(range: Range, s: Store, op: Operation): Store {
    match op
    case AllocateOp(d, target, ok) => Allocate(range, s, d, target, ok).0
    case MarkOnlineOp(d, target, ok) => MarkOnline(s, d, target, ok).0
    case MarkOfflineOp(d) => MarkOffline(s, d)
    case UpdateOp(d, p, ok) => UpdateExternalPort(range, s, d, p, ok).0
    case PresetOp(d, p, target, ok) => SetFixedPort(range, s, d, p, target, ok).0
    case ReleaseOp(d, ok) => Release(s, d, ok).0
    case ReloadOp => Reload(s)
  }

  function ApplyAll(range: Range, s: Store, ops: seq<Operation>): Store
    decreases |ops|
  {
    if ops == [] then s else ApplyAll(range, Apply(range, s, ops[0]), ops[1..])
  }

  /** Publishing a row on a port nobody else holds keeps every table property. */
  lemma SaveKeepsWellFormed(s: Store, r: Reservation, committed: bool)
    requires WellFormed(s)
    requires forall e | e in s.cache && e != r.deviceId :: s.cache[e].externalPort != r.externalPort
    ensures WellFormed(Save(s, r, committed))
  {
  }

  lemma ApplyKeepsWellFormed(range: Range, s: Store, op: Operation)
    requires WellFormed(s)
    ensures WellFormed(Apply(range, s, op))
  {
    match op
    case AllocateOp(d, target, ok) =>
      var free := LowestFree(s.cache, range.lo, range.hi);
      if d !in s.cache && free.Some? { SaveKeepsWellFormed(s, Reservation(d, free.value, target, false), ok); }
    case MarkOnlineOp(d, target, ok) =>
      if d in s.cache { SaveKeepsWellFormed(s, s.cache[d].(online := true, targetPort := target), ok); }
    case MarkOfflineOp(d) =>
    case UpdateOp(d, p, ok) =>
      if d in s.cache && !Reserved(s.cache, p) { SaveKeepsWellFormed(s, s.cache[d].(externalPort := p), ok); }
    case PresetOp(d, p, target, ok) =>
      if !Reserved(s.cache, p) { SaveKeepsWellFormed(s, Reservation(d, p, target, false), ok); }
    case ReleaseOp(d, ok) =>
    case ReloadOp =>
  }

  /** The cache refines the database after every run, whichever writes threw on the way. */
  lemma {:induction false} RunRefinesDatabase(range: Range, s: Store, ops: seq<Operation>)
    requires WellFormed(s)
    ensures WellFormed(ApplyAll(range, s, ops))
    decreases |ops|
  {
    if ops == [] {
    } else {
      ApplyKeepsWellFormed(range, s, ops[0]);
      RunRefinesDatabase(range, Apply(range, s, ops[0]), ops[1..]);
    }
  }

  /** A committed administrator action on `d`: the only operations that may move its port. */
  predicate MovesPort(op: Operation, d: Device) {
    (op.UpdateOp? || op.ReleaseOp?) && op.d == d && op.committed
  }

  /** Reconnects, failed writes, disconnects, other devices' operations and restarts all
      leave a reserved port where it is; only an explicit update or delete moves it. */
  lemma {:induction false} FixedPortOverRuns(range: Range, s: Store, ops: seq<Operation>, d: Device)
    requires WellFormed(s) && d in s.cache
    requires forall op | op in ops :: !MovesPort(op, d)
    ensures d in ApplyAll(range, s, ops).cache
    ensures ApplyAll(range, s, ops).cache[d].externalPort == s.cache[d].externalPort
    decreases |ops|
  {
    if ops == [] {
    } else {
      assert ops[0] in ops;
      ApplyKeepsWellFormed(range, s, ops[0]);
      OperationKeepsPort(range, s, ops[0], d);
      FixedPortOverRuns(range, Apply(range, s, ops[0]), ops[1..], d);
    }
  }

  lemma OperationKeepsPort(range: Range, s: Store, op: Operation, d: Device)
    requires WellFormed(s) && d in s.cache && !MovesPort(op, d)
    ensures d in Apply(range, s, op).cache
    ensures Apply(range, s, op).cache[d].externalPort == s.cache[d].externalPort
  {
    if op.ReloadOp? {
      assert SameButOnline(s.cache[d], s.repository[d]);
    }
  }

  /** A restart forgets nothing but who is online. */
  lemma RestartRestoresReservations(range: Range, s: Store, ops: seq<Operation>)
    requires WellFormed(s)
    ensures var before, after := ApplyAll(range, s, ops), ApplyAll(range, s, ops + [ReloadOp]);
            && after.cache.Keys == before.cache.Keys
            && (forall d | d in before.cache :: after.cache[d] == before.cache[d].(online := false))
    decreases |ops|
  {
    RunRefinesDatabase(range, s, ops);
    ApplyAllAppends(range, s, ops, ReloadOp);
    var before := ApplyAll(range, s, ops);
    forall d | d in before.cache
      ensures Loaded(before.repository)[d] == before.cache[d].(online := false)
    {
      assert SameButOnline(before.cache[d], before.repository[d]);
    }
  }

  lemma {:induction false} ApplyAllAppends(range: Range, s: Store, ops: seq<Operation>, op: Operation)
    ensures ApplyAll(range, s, ops + [op]) == Apply(range, ApplyAll(range, s, ops), op)
    decreases |ops|
  {
    if ops == [] {
    } else {
      assert (ops + [op])[1..] == ops[1..] + [op];
      ApplyAllAppends(range, Apply(range, s, ops[0]), ops[1..], op);
    }
  }

  /** A first registration gets the least unreserved port of the range, and is refused exactly
      when the whole range is reserved. */
  lemma FreshAllocationIsLeast(range: Range, s: Store, d: Device, target: int)
    requires WellFormed(s) && d !in s.cache && ValidTarget(target)
    ensures var (after, reply) := Allocate(range, s, d, target, true);
            && (reply.Exhausted? <==> forall p | range.Contains(p) :: Reserved(s.cache, p))
            && (reply.Granted? <==> !reply.Exhausted?)
            && (reply.Granted? ==>
                  && range.Contains(reply.port) && !Reserved(s.cache, reply.port)
                  && (forall p | range.lo <= p < reply.port :: Reserved(s.cache, p))
                  && d in after.cache && after.cache[d].externalPort == reply.port)
  {
    var free := LowestFree(s.cache, range.lo, range.hi);
    if free.Some? {
      assert range.Contains(free.value);
    }
  }

  // What each operation grants and stores --------------------------------------------------

  /** The row of `d` is `row` in cache and database, and every other row is as it was. */
  ghost predicate Stored(s: Store, after: Store, d: Device, row: Reservation) {
    after.cache == s.cache[d := row] && after.repository == s.repository[d := row]
  }

  /** A device is shown online with the target port it registered, on its old external port, exactly
      if the write commits. */
  lemma MarkedOnlineIff(s: Store, d: Device, target: int, committed: bool)
    requires WellFormed(s) && ValidTarget(target) && d in s.cache
    ensures var (after, reply) := MarkOnline(s, d, target, committed);
      && (reply.Done? <==> committed)
      && (if committed then Stored(s, after, d, Reservation(d, s.cache[d].externalPort, target, true)) else after == s)
  {
  }

  /** An administrator is granted a port of the range for a device exactly if the device has none, nobody
      else has it, and the write commits. */
  lemma PresetIff(range: Range, s: Store, d: Device, p: Port, target: int, committed: bool)
    requires range.Contains(p) && ValidTarget(target)
    ensures var (after, reply) := SetFixedPort(range, s, d, p, target, committed);
      && (reply.Done? <==> d !in s.cache && (forall e | e in s.cache :: s.cache[e].externalPort != p) && committed)
      && (if reply.Done? then Stored(s, after, d, Reservation(d, p, target, false)) else after == s)
  {
  }

  /** A first allocation stores the granted port with the target port, and one whose write throws stores
      nothing; a device that has a port keeps it. */
  lemma AllocatedIff(range: Range, s: Store, d: Device, target: int, committed: bool)
    requires WellFormed(s) && ValidTarget(target)
    ensures var (after, reply) := Allocate(range, s, d, target, committed);
      if d in s.cache then reply == Granted(s.cache[d].externalPort) && after == s
      else
        && (reply.Granted? <==> committed && exists p :: range.Contains(p) && !Reserved(s.cache, p))
        && (if reply.Granted? then Stored(s, after, d, Reservation(d, reply.port, target, false)) else after == s)
  {
    var free := LowestFree(s.cache, range.lo, range.hi);
    if free.Some? { assert range.Contains(free.value); }
  }

  /** An update that is granted and changes the port moves exactly the external port. */
  lemma UpdatedIff(range: Range, s: Store, d: Device, p: Port, committed: bool)
    requires WellFormed(s) && range.Contains(p) && d in s.cache && s.cache[d].externalPort != p
    ensures var (after, reply) := UpdateExternalPort(range, s, d, p, committed);
      && (reply.Granted? <==> committed && !Reserved(s.cache, p))
      && (reply.Granted? ==> reply.port == s.cache[d].externalPort)
      && (if reply.Granted? then Stored(s, after, d, s.cache[d].(externalPort := p)) else after == s)
  {
  }

  /** A deletion takes the device's row out of cache and database exactly if it commits. */
  lemma ReleasedIff(s: Store, d: Device, committed: bool)
    requires WellFormed(s) && d in s.cache
    ensures var (after, reply) := Release(s, d, committed);
      && (reply.Done? <==> committed)
      && after.cache == (if committed then s.cache - {d} else s.cache)
      && after.repository == (if committed then s.repository - {d} else s.repository)
  {
  }
}
